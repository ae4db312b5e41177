/** The Celery variant of the background pipeline (app/services/celery_worker.py): the
 *  poll scheduler, `clean_nan`, alert-rule evaluation and the snapshot analyser. */
module CeleryWorker {
  import opened Common
  import opened Records
  import opened Polling
  import opened Snapshots

  // ================================================================ schedule_data_fetches

  /** A never-polled workspace is due; otherwise the elapsed time must strictly exceed the
   *  period of a known interval, and an unknown interval is never due. */
  predicate IsDue(w: PollRow, now: int)
  {
    if w.lastPolledAt.None? then true
    else if w.pollingInterval == Some("every_minute") then now - w.lastPolledAt.value > MINUTE
    else if w.pollingInterval == Some("hourly") then now - w.lastPolledAt.value > HOUR
    else if w.pollingInterval == Some("daily") then now - w.lastPolledAt.value > DAY
    else false
  }

  lemma DueRule(w: PollRow, now: int)
    ensures IsDue(w, now) <==>
      w.lastPolledAt.None?
      || (Period(w.pollingInterval).Some? && now - w.lastPolledAt.value > Period(w.pollingInterval).value)
  {
  }

  /** One scheduler run over the workspace rows: only rows with polling active are examined,
   *  and every due, configured row is handed to exactly one fetcher. */
  method ScheduleDataFetches(rows: seq<PollRow>, now: int) returns (jobs: seq<Job>, triggeredCount: nat)
    ensures jobs == Planned(rows, now, IsDue)
    ensures triggeredCount == |jobs|
  {
    jobs := [];
    triggeredCount := 0;
    var i := 0;
    while i < |rows|
      invariant 0 <= i <= |rows|
      invariant jobs == Planned(rows[..i], now, IsDue)
      invariant triggeredCount == |jobs|
    {
      var ws := rows[i];
      if ws.isPollingActive {
        var isDue := false;
        if ws.lastPolledAt.None? {
          isDue := true;
        } else if ws.pollingInterval == Some("every_minute") && now - ws.lastPolledAt.value > MINUTE {
          isDue := true;
        } else if ws.pollingInterval == Some("hourly") && now - ws.lastPolledAt.value > HOUR {
          isDue := true;
        } else if ws.pollingInterval == Some("daily") && now - ws.lastPolledAt.value > DAY {
          isDue := true;
        }
        if isDue {
          if ws.dataSource == Some("API") && IsSet(ws.apiUrl) {
            jobs := jobs + [FetchApi(ws.id)];
            triggeredCount := triggeredCount + 1;
          } else if ws.dataSource == Some("DB") && IsSet(ws.dbHost) && IsSet(ws.dbQuery) {
            jobs := jobs + [FetchDb(ws.id)];
            triggeredCount := triggeredCount + 1;
          }
        }
      }
      assert rows[..i + 1][..i] == rows[..i];
      i := i + 1;
    }
    assert rows[..|rows|] == rows;
  }

  // ================================================================ clean_nan

  /** Replaces every NaN and infinity by `None`, recursing into dicts and lists. */
  function CleanNan(j: Json): (r: Json)
    ensures AllFinite(r)
    ensures Cleaned(j, r)
  {
    match j
    case JObject(fs) => JObject(seq(|fs|, i requires 0 <= i < |fs| => (fs[i].0, CleanNan(fs[i].1))))
    case JList(xs) => JList(seq(|xs|, i requires 0 <= i < |xs| => CleanNan(xs[i])))
    case JFloat(f) => if f.Finite? then j else JNull
    case _ => j
  }

  /** `clean_nan` changes a value exactly when it holds a NaN or an infinity. */
  lemma {:induction false} CleanNanFixpoint(j: Json)
    ensures CleanNan(j) == j <==> AllFinite(j)
  {
    match j
    case JObject(fs) =>
      forall i | 0 <= i < |fs| ensures CleanNan(fs[i].1) == fs[i].1 <==> AllFinite(fs[i].1) {
        CleanNanFixpoint(fs[i].1);
      }
      if AllFinite(j) {
        assert CleanNan(j).fields == fs;
      }
      if CleanNan(j) == j {
        forall i | 0 <= i < |fs| ensures AllFinite(fs[i].1) {
          assert CleanNan(j).fields[i] == fs[i];
        }
      }
    case JList(xs) =>
      forall i | 0 <= i < |xs| ensures CleanNan(xs[i]) == xs[i] <==> AllFinite(xs[i]) {
        CleanNanFixpoint(xs[i]);
      }
      if AllFinite(j) {
        assert CleanNan(j).items == xs;
      }
      if CleanNan(j) == j {
        forall i | 0 <= i < |xs| ensures AllFinite(xs[i]) {
          assert CleanNan(j).items[i] == xs[i];
        }
      }
    case _ =>
  }

  lemma CleanNanIdempotent(j: Json)
    ensures CleanNan(CleanNan(j)) == CleanNan(j)
  {
    CleanNanFixpoint(CleanNan(j));
  }

  /** The cleaned `summary_stats` dict. */
  function CleanStats(stats: seq<(string, Json)>): (r: seq<(string, Json)>)
    ensures AllFinite(JObject(r))
    ensures Keys(r) == Keys(stats)
  {
    var c := CleanNan(JObject(stats));
    assert forall i :: 0 <= i < |stats| ==> c.fields[i].0 == stats[i].0;
    c.fields
  }

  // ================================================================ check_alert_rules

  /** The statistic a rule looks at, when `stats.get(column)` is a non-empty dict and its
   *  `get(metric)` is not `None`. A truthy non-dict makes `.get` raise, which skips the rule. */
  function Actual(stats: seq<(string, Json)>, rule: AlertRule): Option<Json>
  {
    var colStats := Get(stats, rule.columnName);
    if colStats.None? || !Truthy(colStats.value) || !colStats.value.JObject? then None
    else
      var actual := Get(colStats.value.fields, rule.metric);
      if actual.None? || actual.value.JNull? then None else actual
  }

  /** The operator table `greater_than`/`less_than`/`equals`; a comparison that raises
   *  TypeError skips the rule. */
  predicate Holds(condition: string, actual: Json, v: real)
  {
    if condition == "greater_than" then Gt(actual, v) == Some(true)
    else if condition == "less_than" then Lt(actual, v) == Some(true)
    else if condition == "equals" then Eq(actual, v)
    else false
  }

  predicate Fires(stats: seq<(string, Json)>, rule: AlertRule)
  {
    Actual(stats, rule).Some? && Holds(rule.condition, Actual(stats, rule).value, rule.value)
  }

  /** A rule fires iff its column has statistics, the metric is present and not `None`, the
   *  condition is a known operator and the comparison holds. */
  lemma FiresIff(stats: seq<(string, Json)>, rule: AlertRule)
    ensures Fires(stats, rule) <==>
      (exists colStats :: Get(stats, rule.columnName) == Some(JObject(colStats)) && colStats != []
        && (exists a :: Get(colStats, rule.metric) == Some(a) && a != JNull
              && rule.condition in {"greater_than", "less_than", "equals"}
              && Holds(rule.condition, a, rule.value)))
  {
    var cs := Get(stats, rule.columnName);
    if Fires(stats, rule) {
      var colStats := cs.value.fields;
      assert Get(stats, rule.columnName) == Some(JObject(colStats));
      var a := Get(colStats, rule.metric).value;
      assert Get(colStats, rule.metric) == Some(a);
    }
  }

  /** The rules that fire, in rule order. */
  function FiredRules(stats: seq<(string, Json)>, rules: seq<AlertRule>): (r: seq<AlertRule>)
    ensures |r| <= |rules|
    ensures forall i :: 0 <= i < |r| ==> r[i] in rules && Fires(stats, r[i])
  {
    if rules == [] then []
    else
      var rest := FiredRules(stats, rules[..|rules| - 1]);
      var last := rules[|rules| - 1];
      assert forall x :: x in rules[..|rules| - 1] ==> x in rules;
      if Fires(stats, last) then rest + [last] else rest
  }

  /** A skipped rule does not stop the evaluation of the rules after it. */
  lemma {:induction false} FiredRulesAppend(stats: seq<(string, Json)>, a: seq<AlertRule>, b: seq<AlertRule>)
    ensures FiredRules(stats, a + b) == FiredRules(stats, a) + FiredRules(stats, b)
    decreases |b|
  {
    if b == [] {
      assert a + b == a;
    } else {
      var b' := b[..|b| - 1];
      assert (a + b)[..|a + b| - 1] == a + b';
      FiredRulesAppend(stats, a, b');
    }
  }

  /** The notification a fired rule adds: to the owner, with the rule's parts as its text. */
  function AlertDraft(ws: WorkspaceView, stats: seq<(string, Json)>, rule: AlertRule): NotificationDraft
    requires Fires(stats, rule)
  {
    NotificationDraft(ws.owner.id, ws.id,
      SmartAlert(rule.columnName, rule.metric, Actual(stats, rule).value, rule.condition, rule.value), None)
  }

  /** The threshold e-mail a fired rule sends to the team plus the owner, without repeats. */
  function AlertEmail(ws: WorkspaceView, upload: Upload, stats: seq<(string, Json)>, rule: AlertRule): Email
    requires Fires(stats, rule)
  {
    ThresholdAlert(Recipients(ws), ws.name, rule, Actual(stats, rule).value, upload.filePath)
  }

  function AlertDrafts(ws: WorkspaceView, stats: seq<(string, Json)>, rules: seq<AlertRule>): seq<NotificationDraft>
  {
    if rules == [] then []
    else
      var last := rules[|rules| - 1];
      AlertDrafts(ws, stats, rules[..|rules| - 1]) + (if Fires(stats, last) then [AlertDraft(ws, stats, last)] else [])
  }

  function AlertEmails(ws: WorkspaceView, upload: Upload, stats: seq<(string, Json)>, rules: seq<AlertRule>): seq<Email>
  {
    if rules == [] then []
    else
      var last := rules[|rules| - 1];
      AlertEmails(ws, upload, stats, rules[..|rules| - 1]) + (if Fires(stats, last) then [AlertEmail(ws, upload, stats, last)] else [])
  }

  /** Every alert notification goes to the owner alone, one per fired rule, and each fired
   *  rule also sends one e-mail whose recipients are the team plus the owner, without repeats. */
  lemma {:induction false} AlertsReachOwner(ws: WorkspaceView, upload: Upload, stats: seq<(string, Json)>, rules: seq<AlertRule>)
    ensures |AlertDrafts(ws, stats, rules)| == |FiredRules(stats, rules)| == |AlertEmails(ws, upload, stats, rules)|
    ensures forall d :: d in AlertDrafts(ws, stats, rules) ==> d.userId == ws.owner.id && d.aiInsight.None?
    ensures forall e :: e in AlertEmails(ws, upload, stats, rules) ==>
      e.recipients == Recipients(ws) && ws.owner.email in e.recipients
  {
    if rules != [] {
      AlertsReachOwner(ws, upload, stats, rules[..|rules| - 1]);
    }
    var users := UsersToNotify(ws);
    var k :| 0 <= k < |users| && users[k] == ws.owner;
    assert Emails(users)[k] == ws.owner.email;
  }

  lemma NoStatsNoFire(rule: AlertRule)
    ensures !Fires([], rule)
  {
  }

  /** `check_alert_rules`: the active rules of the workspace are evaluated in order; the
   *  notifications and e-mails of the rules that fire are added to the session. */
  method CheckAlertRules(db: Session, ws: WorkspaceView, upload: Upload, results: AnalysisResults, table: seq<AlertRule>)
    modifies db
    ensures db.uploads == old(db.uploads)
    ensures db.added == old(db.added) + AlertDrafts(ws, results.summaryStats, ActiveRules(table, ws.id))
    ensures db.outbox == old(db.outbox) + AlertEmails(ws, upload, results.summaryStats, ActiveRules(table, ws.id))
  {
    var rules := ActiveRules(table, ws.id);
    if rules == [] {
      return;
    }
    var stats := results.summaryStats;
    if stats == [] {
      forall r | r in rules ensures !Fires(stats, r) { NoStatsNoFire(r); }
      NothingFires(ws, upload, stats, rules);
      return;
    }
    EvaluateRules(db, ws, upload, stats, rules);
  }

  /** The loop over the active rules, in order. */
  method EvaluateRules(db: Session, ws: WorkspaceView, upload: Upload, stats: seq<(string, Json)>, rules: seq<AlertRule>)
    modifies db
    ensures db.uploads == old(db.uploads)
    ensures db.added == old(db.added) + AlertDrafts(ws, stats, rules)
    ensures db.outbox == old(db.outbox) + AlertEmails(ws, upload, stats, rules)
  {
    var recipients := Recipients(ws);
    ghost var added0, outbox0 := db.added, db.outbox;
    var i := 0;
    while i < |rules|
      invariant 0 <= i <= |rules|
      invariant db.uploads == old(db.uploads)
      invariant db.added == added0 + AlertDrafts(ws, stats, rules[..i])
      invariant db.outbox == outbox0 + AlertEmails(ws, upload, stats, rules[..i])
    {
      AlertStep(ws, upload, stats, rules, i);
      var _ := EvaluateRule(db, ws, upload, stats, rules[i], recipients);
      i := i + 1;
    }
    assert rules[..|rules|] == rules;
  }

  /** The body of the rule loop: the rule is skipped when its column has no statistics, the
   *  metric is missing or `None`, or the condition is unknown; otherwise it fires when the
   *  comparison holds. */
  method EvaluateRule(db: Session, ws: WorkspaceView, upload: Upload, stats: seq<(string, Json)>, rule: AlertRule,
                      recipients: seq<string>) returns (fired: bool)
    requires recipients == Recipients(ws)
    modifies db
    ensures fired == Fires(stats, rule)
    ensures db.uploads == old(db.uploads)
    ensures db.added == old(db.added) + (if fired then [AlertDraft(ws, stats, rule)] else [])
    ensures db.outbox == old(db.outbox) + (if fired then [AlertEmail(ws, upload, stats, rule)] else [])
  {
    var colStats := Get(stats, rule.columnName);
    if colStats.None? || !Truthy(colStats.value) || !colStats.value.JObject? {
      return false;
    }
    var actual := Get(colStats.value.fields, rule.metric);
    if actual.None? || actual.value.JNull? {
      return false;
    }
    if rule.condition !in {"greater_than", "less_than", "equals"} {
      return false;
    }
    fired := Holds(rule.condition, actual.value, rule.value);
    if fired {
      db.added := db.added + [NotificationDraft(ws.owner.id, ws.id,
        SmartAlert(rule.columnName, rule.metric, actual.value, rule.condition, rule.value), None)];
      db.outbox := db.outbox + [ThresholdAlert(recipients, ws.name, rule, actual.value, upload.filePath)];
    }
  }

  /** One more rule extends the notifications and e-mails by that rule's, if it fires. */
  lemma AlertStep(ws: WorkspaceView, upload: Upload, stats: seq<(string, Json)>, rules: seq<AlertRule>, i: nat)
    requires i < |rules|
    ensures AlertDrafts(ws, stats, rules[..i + 1])
         == AlertDrafts(ws, stats, rules[..i]) + (if Fires(stats, rules[i]) then [AlertDraft(ws, stats, rules[i])] else [])
    ensures AlertEmails(ws, upload, stats, rules[..i + 1])
         == AlertEmails(ws, upload, stats, rules[..i]) + (if Fires(stats, rules[i]) then [AlertEmail(ws, upload, stats, rules[i])] else [])
  {
    assert rules[..i + 1][..i] == rules[..i];
  }

  lemma {:induction false} NothingFires(ws: WorkspaceView, upload: Upload, stats: seq<(string, Json)>, rules: seq<AlertRule>)
    requires forall r :: r in rules ==> !Fires(stats, r)
    ensures AlertDrafts(ws, stats, rules) == [] && AlertEmails(ws, upload, stats, rules) == []
  {
    if rules != [] {
      assert forall r :: r in rules[..|rules| - 1] ==> r in rules;
      NothingFires(ws, upload, stats, rules[..|rules| - 1]);
    }
  }

  // ================================================================ process_csv_task

  datatype TaskStatus = Success | Error(message: string)

  datatype Comparison = Comparison(schemaChanged: bool, rowChanged: bool, oldCols: set<string>, oldRows: int)

  /** The comparison with the previous upload, made only when that upload has analysis
   *  results; a missing `row_count` counts as 0. */
  function Compare(prev: Option<Upload>, currentType: string, newCols: set<string>, newRows: int): Comparison
  {
    if prev.Some? && prev.value.analysisResults.Some? && prev.value.uploadType == currentType then
      var oldCols := ColumnNames(prev.value.schemaInfo.GetOr([]));
      var oldRows := prev.value.analysisResults.value.rowCount.GetOr(0);
      Comparison(oldCols != newCols, oldRows != newRows, oldCols, oldRows)
    else Comparison(false, false, {}, 0)
  }

  /** `f"{(new - old) / old * 100:+.1f}%"` when the old count is non-zero and the count changed,
   *  else `"0.0%"`. */
  function Percent(c: Comparison, newRows: int): PercentChange
  {
    if c.oldRows != 0 && c.rowChanged then Signed((newRows - c.oldRows) as real / c.oldRows as real * 100.0)
    else ZeroPercent
  }

  lemma PercentMeaning(c: Comparison, newRows: int)
    requires c.rowChanged ==> c.oldRows != newRows
    ensures Percent(c, newRows) == ZeroPercent <==> c.oldRows == 0 || !c.rowChanged
    ensures Percent(c, newRows).Signed? ==>
      Percent(c, newRows).percent != 0.0
      && (Percent(c, newRows).percent > 0.0 <==> (newRows > c.oldRows) == (c.oldRows > 0))
  {
    if c.oldRows != 0 && c.rowChanged {
      var d := (newRows - c.oldRows) as real;
      var o := c.oldRows as real;
      assert d != 0.0;
      if o > 0.0 {
        assert d > 0.0 ==> d / o > 0.0;
        assert d < 0.0 ==> d / o < 0.0;
      } else {
        assert d > 0.0 ==> d / o < 0.0;
        assert d < 0.0 ==> d / o > 0.0;
      }
    }
  }

  function MetricChangesOf(c: Comparison, newRows: int): Option<MetricChanges>
  {
    if c.rowChanged then Some(MetricChanges(c.oldRows, newRows, Percent(c, newRows))) else None
  }

  /** `{row_count, column_count, summary_stats}` with the statistics cleaned. */
  function AnalysisOf(frame: Frame, describe: seq<(string, Json)>): AnalysisResults
  {
    AnalysisResults(Some(frame.rowCount), |frame.columns|, CleanStats(describe))
  }

  function ComparisonFor(uploads: seq<Upload>, current: Upload, frame: Frame): Comparison
  {
    Compare(PreviousUpload(uploads, current), current.uploadType, ColumnNames(frame.columns), frame.rowCount)
  }

  /** The notification rows and the detailed e-mail for a structural or row-count change. */
  function ChangeDrafts(ws: WorkspaceView, c: Comparison, newCols: set<string>, insightOf: SchemaChanges -> string): seq<NotificationDraft>
  {
    if c.schemaChanged || c.rowChanged then
      DraftsForUsers(UsersToNotify(ws), ws.id, StructuralChange(ws.name), Some(insightOf(SchemaChanges(newCols - c.oldCols, c.oldCols - newCols))))
    else []
  }

  function ChangeEmails(ws: WorkspaceView, current: Upload, prev: Option<Upload>, c: Comparison, newCols: set<string>,
                        newRows: int, insightOf: SchemaChanges -> string): seq<Email>
  {
    if c.schemaChanged || c.rowChanged then
      var changes := SchemaChanges(newCols - c.oldCols, c.oldCols - newCols);
      [DetailedAlert(Emails(UsersToNotify(ws)), ws.name, current.uploadType, current.filePath,
        if prev.Some? then prev.value.filePath else Some("N/A"),
        Some(insightOf(changes)), Some(changes), MetricChangesOf(c, newRows))]
    else []
  }

  /** The upload row after analysis. */
  function Analyzed(current: Upload, frame: Frame, describe: seq<(string, Json)>, c: Comparison): Upload
  {
    current.(schemaInfo := Some(frame.columns), analysisResults := Some(AnalysisOf(frame, describe)), schemaChanged := c.schemaChanged)
  }

  /** `process_csv_task`. The workspaces table is keyed by id; `insightOf` stands for the
   *  AI service. */
  method ProcessCsvTask(db: Session, uploadId: UploadId, frame: Option<Frame>,
                        workspaces: map<WorkspaceId, WorkspaceView>, table: seq<AlertRule>,
                        insightOf: SchemaChanges -> string) returns (status: TaskStatus)
    modifies db
    ensures IndexOfUpload(old(db.uploads), uploadId).None? ==>
      status == Error("Upload not found") && unchanged(db)
    ensures IndexOfUpload(old(db.uploads), uploadId).Some? ==>
      var k := IndexOfUpload(old(db.uploads), uploadId).value;
      var current := old(db.uploads)[k];
      if !IsSet(current.fileContent) then status == Error("Empty CSV content") && unchanged(db)
      else if frame.None? then status == Error("Failed to parse CSV") && unchanged(db)
      else if frame.value.describeAll.None? then status == Error("Failed to generate summary stats") && unchanged(db)
      else
        var f := frame.value;
        var c := ComparisonFor(old(db.uploads), current, f);
        var results := AnalysisOf(f, f.describeAll.value);
        status == Success
        && db.uploads == old(db.uploads)[k := Analyzed(current, f, f.describeAll.value, c)]
        && (current.workspaceId !in workspaces ==> db.added == old(db.added) && db.outbox == old(db.outbox))
        && (current.workspaceId in workspaces ==>
             var ws := workspaces[current.workspaceId];
             db.added == old(db.added) + ChangeDrafts(ws, c, ColumnNames(f.columns), insightOf)
                         + AlertDrafts(ws, results.summaryStats, ActiveRules(table, ws.id))
             && db.outbox == old(db.outbox)
                         + ChangeEmails(ws, current, PreviousUpload(old(db.uploads), current), c, ColumnNames(f.columns), f.rowCount, insightOf)
                         + AlertEmails(ws, current, results.summaryStats, ActiveRules(table, ws.id)))
  {
    var index := IndexOfUpload(db.uploads, uploadId);
    if index.None? {
      return Error("Upload not found");
    }
    var k := index.value;
    var current := db.uploads[k];
    if !IsSet(current.fileContent) {
      return Error("Empty CSV content");
    }
    if frame.None? {
      return Error("Failed to parse CSV");
    }
    var df := frame.value;
    var newCols := ColumnNames(df.columns);
    var newRowCount := df.rowCount;
    var previous := PreviousUpload(db.uploads, current);
    var c := Compare(previous, current.uploadType, newCols, newRowCount);
    if df.describeAll.None? {
      return Error("Failed to generate summary stats");
    }
    var results := AnalysisOf(df, df.describeAll.value);
    db.uploads := db.uploads[k := Analyzed(current, df, df.describeAll.value, c)];
    if current.workspaceId in workspaces {
      var ws := workspaces[current.workspaceId];
      NotifyChange(db, ws, current, previous, c, newCols, newRowCount, insightOf);
      CheckAlertRules(db, ws, current, results, table);
    }
    return Success;
  }

  /** The structural-change branch of `process_csv_task`: one notification per user to notify
   *  and one detailed e-mail, when the columns or the row count changed. */
  method NotifyChange(db: Session, ws: WorkspaceView, current: Upload, previous: Option<Upload>, c: Comparison,
                      newCols: set<string>, newRowCount: int, insightOf: SchemaChanges -> string)
    modifies db
    ensures db.uploads == old(db.uploads)
    ensures db.added == old(db.added) + ChangeDrafts(ws, c, newCols, insightOf)
    ensures db.outbox == old(db.outbox) + ChangeEmails(ws, current, previous, c, newCols, newRowCount, insightOf)
  {
    if c.schemaChanged || c.rowChanged {
      var changes := SchemaChanges(newCols - c.oldCols, c.oldCols - newCols);
      var insight := insightOf(changes);
      var users := UsersToNotify(ws);
      NotifyUsers(db, users, ws.id, StructuralChange(ws.name), Some(insight));
      db.outbox := db.outbox + [DetailedAlert(Emails(users), ws.name, current.uploadType, current.filePath,
        if previous.Some? then previous.value.filePath else Some("N/A"),
        Some(insight), Some(changes), MetricChangesOf(c, newRowCount))];
    }
  }

  // ================================================================ what the analyser promises

  /** The analysed upload always carries the row count, the column count and statistics
   *  free of NaN and infinities; it is flagged as changed exactly when the latest other
   *  upload of the same workspace and type has analysis results and another column set. */
  lemma AnalyzedUploadFacts(uploads: seq<Upload>, current: Upload, frame: Frame, describe: seq<(string, Json)>)
    ensures var u := Analyzed(current, frame, describe, ComparisonFor(uploads, current, frame));
      && u.id == current.id && u.workspaceId == current.workspaceId && u.uploadedAt == current.uploadedAt
      && u.analysisResults.Some?
      && u.analysisResults.value.rowCount == Some(frame.rowCount)
      && u.analysisResults.value.columnCount == |frame.columns|
      && AllFinite(JObject(u.analysisResults.value.summaryStats))
      && (u.schemaChanged <==>
           var p := PreviousUpload(uploads, current);
           p.Some? && p.value.analysisResults.Some?
           && ColumnNames(p.value.schemaInfo.GetOr([])) != ColumnNames(frame.columns))
  {
    PreviousUploadIsLatest(uploads, current);
  }

  /** Structural notifications go to every team member and the owner once each (by user
   *  id), exactly when the column set or the row count changed. */
  lemma ChangeNotifications(ws: WorkspaceView, c: Comparison, newCols: set<string>, insightOf: SchemaChanges -> string)
    ensures ChangeDrafts(ws, c, newCols, insightOf) != [] <==> c.schemaChanged || c.rowChanged
    ensures c.schemaChanged || c.rowChanged ==>
      |ChangeDrafts(ws, c, newCols, insightOf)| == |UsersToNotify(ws)|
      && (forall u :: u in ws.team || u == ws.owner ==>
            exists d :: d in ChangeDrafts(ws, c, newCols, insightOf) && d.userId == u.id && d.message == StructuralChange(ws.name))
      && (forall d :: d in ChangeDrafts(ws, c, newCols, insightOf) ==>
            exists u :: (u in ws.team || u == ws.owner) && d.userId == u.id)
  {
    if c.schemaChanged || c.rowChanged {
      var users := UsersToNotify(ws);
      var insight := Some(insightOf(SchemaChanges(newCols - c.oldCols, c.oldCols - newCols)));
      DraftsReachUsers(users, ws.id, StructuralChange(ws.name), insight);
      DraftsFromUsers(users, ws.id, StructuralChange(ws.name), insight);
    }
  }
}
