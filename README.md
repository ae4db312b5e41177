# DataPulse core, modelled in Dafny

DataPulse watches a team's datasets. A workspace gets data as CSV uploads, or from a REST API or a PostgreSQL query that a scheduler polls. Every new upload is analysed: its schema, its row count and `describe()` statistics. The analysis is compared with the previous upload of the same kind. Structural changes and user-defined alert rules then produce notifications and e-mails for the workspace owner and team.

This project models the logic at the centre of that system, and proves what it promises:

- The backend (Python/FastAPI):
  - the two variants of the background pipeline (the Celery worker and the synchronous tasks): the poll scheduler, `clean_nan`, alert-rule evaluation, and the schema and row-count comparison;
  - the data-quality report;
  - the workspace endpoints: validators, the three-workspace limit, access checks, field clearing, team rewrite and the trend series;
  - the OTP/password state machine of sign-up, sign-in and password reset;
  - the WebSocket connection registry;
  - the export path builder;
  - the CSRF guardian middleware;
  - the notification endpoints;
  - the upload-limit service, on its own (no endpoint or worker of the backend calls it);
  - the one-time feedback flag.
- The frontend (React/TypeScript):
  - the OTP inputs of the sign-up and password-reset pages;
  - the team-members card;
  - the user-agent parser and account deletion guard;
  - the notification message parser and page;
  - the data-history card;
  - the session context with its bounded retries;
  - the alert card and the alert-creation dialog;
  - the data-source dialog;
  - the workspace deletion flow.

There is one Dafny module per source file, plus four shared modules:

- `Common`: Option, Result, JavaScript and Python character classes, trimming, substring search, splitting and joining, and decimal digits.
- `Sorting`: a stable insertion sort, with sortedness, permutation and stability proved.
- `Records`: the backend's value types and a `Session` class for the database session.
- `Polling`: the columns the schedulers read, and the fetcher choice they share.

Code that changes state step by step is modelled by classes whose methods are proved against specification functions. Code that only computes is modelled by functions and lemmas.

Model boundaries:

- Time is an integer number of seconds.
- Python floats are exact reals, with NaN and the infinities made explicit where `clean_nan` and the alert comparisons see them.
- The network, the database engine, pandas, the AI service, e-mail delivery and the browser are parameters: the outcome of a request is an argument of the method that makes it.

## Model

| member | source | states |
|---|---|---|
| Records.UsersToNotify | backend/app/services/celery_worker.py:359 | the users notified are the team plus the owner, each once |
| Records.ActiveRules | backend/app/services/celery_worker.py:339-342 | exactly the active rules of the workspace are kept |
| Records.ActiveRulesAppend | backend/app/services/celery_worker.py:339-342 | the query works piece by piece over the table, so the kept rules are in table order |
| Records.ActiveRulesSingle | backend/app/services/celery_worker.py:339-342 | one rule is kept iff it is active and belongs to the workspace |
| Records.Get | backend/app/services/celery_worker.py:366-371 | a dict lookup finds a value iff the key is present, and the value is the one stored under it |
| Sorting.SortDesc | backend/app/api/notifications.py:27-29 | newest-first ordering: the result is a permutation of the input, sorted by non-increasing key |
| Sorting.SortDescStable | frontend/src/pages/WorkSpaceDetail/DataHistoryCard.tsx:156 | elements with equal keys keep their relative order (JavaScript's sort is stable) |
| Sorting.SortAsc | backend/app/api/workspaces.py:315-320 | ascending `uploaded_at` order: a permutation, sorted by non-decreasing key |
| Sorting.Take | backend/app/api/notifications.py:29 | `LIMIT n` keeps the first `min(n, len)` elements |
| Sorting.SortDescHead | backend/app/services/celery_worker.py:493-494 | the first element of a descending order has the largest key of the input, and is the earliest element of the input with that key |
| Sorting.TakeSortedTop | backend/app/api/notifications.py:27-29 | the first `n` of the newest-first order are drawn from the input, and nothing left out is newer than anything kept |
| Polling.Period | backend/app/services/celery_worker.py:157-162 | an interval has a period iff it is `every_minute`, `hourly` or `daily` |
| Polling.Dispatch | backend/app/services/celery_worker.py:164-172 | a due workspace goes to the API fetcher iff its source is `API` with a URL, to the DB fetcher iff it is `DB` with a host and a query, and otherwise to neither |
| Polling.PlannedJobs | backend/app/services/celery_worker.py:147-172 | every job comes from an active, due, configured row; every such row gets its job; at most one job per row |
| Polling.PlannedOncePerWorkspace | backend/app/services/celery_worker.py:147-172 | with distinct ids, no workspace is dispatched twice in one run |
| Snapshots.ColumnNames | backend/app/services/celery_worker.py:499 | the column set of a schema is exactly its keys |
| Snapshots.Candidates | backend/app/services/celery_worker.py:486-492 | the candidates are exactly the other uploads of the same workspace and type |
| Snapshots.PreviousUploadIsLatest | backend/app/services/celery_worker.py:486-495 | the previous upload is absent iff there is no candidate, and otherwise it is a candidate with the latest `uploaded_at` |
| Snapshots.DraftsForUsers | backend/app/services/tasks.py:258-261 | one notification per user, in user order, each with the same message and insight |
| CeleryWorker.DueRule | backend/app/services/celery_worker.py:150-162 | due iff never polled, or the elapsed time strictly exceeds the period of a known interval; an unknown interval is never due after the first poll |
| CeleryWorker.ScheduleDataFetches | backend/app/services/celery_worker.py:127-178 | the loop dispatches exactly the planned jobs, in row order, and counts them |
| CeleryWorker.CleanNan | backend/app/services/celery_worker.py:426-434 | the result is the input with each NaN and infinity replaced by `None`: same dict keys in the same order, same list lengths, finite floats and all other leaves kept; it holds no NaN or infinity |
| CeleryWorker.CleanNanFixpoint | backend/app/services/celery_worker.py:426-434 | `clean_nan` leaves a value unchanged iff it holds no NaN or infinity |
| CeleryWorker.CleanNanIdempotent | backend/app/services/celery_worker.py:426-434 | cleaning twice is cleaning once |
| CeleryWorker.CleanStats | backend/app/services/celery_worker.py:529-530 | the cleaned statistics are finite and keep every column |
| CeleryWorker.FiresIff | backend/app/services/celery_worker.py:364-382 | a rule fires iff its column has statistics, the metric is present and not `None`, the condition is `greater_than`, `less_than` or `equals`, and the comparison holds |
| CeleryWorker.FiredRules | backend/app/services/celery_worker.py:364-382 | the fired rules are rules of the list that fire, in order |
| CeleryWorker.FiredRulesAppend | backend/app/services/celery_worker.py:364-419 | a skipped rule does not stop the evaluation of the later ones |
| CeleryWorker.AlertsReachOwner | backend/app/services/celery_worker.py:359-414 | each fired rule gives one notification, for the owner only, and one e-mail to the team plus the owner, without repeats |
| CeleryWorker.NoStatsNoFire | backend/app/services/celery_worker.py:348-350 | with empty statistics no rule fires |
| CeleryWorker.CheckAlertRules | backend/app/services/celery_worker.py:337-419 | the session gains exactly the notifications and e-mails of the firing active rules, in order, and the uploads are untouched |
| CeleryWorker.EvaluateRules | backend/app/services/celery_worker.py:364-419 | the rule loop adds the notifications and e-mails of the firing rules, in order |
| CeleryWorker.EvaluateRule | backend/app/services/celery_worker.py:364-419 | one rule is skipped or fires exactly as `Fires` says, adding one notification and one e-mail when it fires |
| CeleryWorker.AlertStep | backend/app/services/celery_worker.py:364-419 | one more rule extends the output by that rule's notification and e-mail iff it fires |
| CeleryWorker.NothingFires | backend/app/services/celery_worker.py:364-419 | when no rule fires, nothing is added |
| CeleryWorker.PercentMeaning | backend/app/services/celery_worker.py:580-584 | the change is `0.0%` iff the old count is 0 or the row count did not change; otherwise it is non-zero, with the sign of the change |
| CeleryWorker.ProcessCsvTask | backend/app/services/celery_worker.py:437-611 | a missing upload or empty content is an error with nothing changed; otherwise the upload gets its schema, analysis and change flag, and the change notifications, e-mails and alerts follow |
| CeleryWorker.NotifyChange | backend/app/services/celery_worker.py:554-611 | a structural change adds one notification per user to notify and one detailed e-mail |
| CeleryWorker.AnalyzedUploadFacts | backend/app/services/celery_worker.py:498-542 | the analysed upload always has row count, column count and finite statistics, and is flagged as changed iff the previous upload has analysis results and another column set |
| CeleryWorker.ChangeNotifications | backend/app/services/celery_worker.py:554-575 | change notifications exist iff the columns or the row count changed, one per team member or owner |
| Tasks.DueRule | backend/app/services/tasks.py:58-68 | due iff the interval is known and the workspace was never polled or its period has passed |
| Tasks.DueAgreement | backend/app/services/tasks.py:58-68 | the two schedulers agree on known intervals; with an unknown interval, a never-polled workspace is due only for the Celery worker |
| Tasks.ScheduleDataFetches | backend/app/services/tasks.py:49-82 | each due, configured, active row runs exactly one fetcher, in row order |
| Tasks.FiresAgreement | backend/app/services/tasks.py:200-205 | a rule fires iff its condition is `greater_than` or `less_than` and the Celery rule would fire; `equals` never fires |
| Tasks.GetCleaned | backend/app/services/celery_worker.py:428 | looking a key up in a cleaned dict finds the cleaned value |
| Tasks.CleanedFiringImpliesRaw | backend/app/services/tasks.py:200-205 | a rule that fires on cleaned statistics in the Celery worker also fires on the raw ones here |
| Tasks.InfinityFiresOnlyRaw | backend/app/services/tasks.py:244 | the converse fails: an infinite mean fires here (its e-mail goes out before the commit fails) but is `None` after `clean_nan` |
| Tasks.AlertCounts | backend/app/services/tasks.py:206-213 | each fired rule gives one notification per user to notify and one e-mail |
| Tasks.AlertEmailsFire | backend/app/services/tasks.py:199-213 | every e-mail is for a firing rule of the list and goes to the team plus the owner |
| Tasks.AlertDraftsReachUsers | backend/app/services/tasks.py:198-211 | every notification goes to a user to notify, without an insight |
| Tasks.EvaluateRule | backend/app/services/tasks.py:200-215 | a rule that fires adds one notification per user and one e-mail; a missing key or an incomparable value adds nothing |
| Tasks.AlertStep | backend/app/services/tasks.py:200-215 | one more rule extends the output by that rule's notifications and e-mail iff it fires |
| Tasks.CheckAlertRules | backend/app/services/tasks.py:194-217 | the session gains exactly the notifications and e-mails of the firing active rules |
| Tasks.EvaluateRules | backend/app/services/tasks.py:200-215 | the loop adds the output of the firing rules, in order |
| Tasks.CompareAgreement | backend/app/services/tasks.py:236-242 | the variants agree on schema changes, and differ on row changes only when the previous analysis has no `row_count` |
| Tasks.Percent | backend/app/services/tasks.py:263 | a zero old count gives 0; otherwise the percentage times the old count is 100 times the difference |
| Tasks.ChangeReport | backend/app/services/tasks.py:251-266 | the report has a schema diff and insight iff the columns changed, metric changes iff the row count changed, and one notification per user to notify |
| Tasks.NotifyChange | backend/app/services/tasks.py:251-266 | the change branch adds the change notifications and e-mail |
| Tasks.ProcessCsvTask | backend/app/services/tasks.py:220-276 | a missing upload or empty content changes nothing; otherwise the upload is analysed without cleaning and the change and alert e-mails go out; the commit succeeds iff the statistics are all finite (PostgreSQL's `json` type refuses `NaN` and `Infinity`), and otherwise the task reports an error with the upload and the notifications rolled back and only the e-mails sent |
| DataQuality.ContainsAnyStripped | backend/app/services/data_quality.py:10-14 | stripping white space never changes whether a space-free keyword occurs in a name |
| DataQuality.IdColumnNameIgnoresSpaces | backend/app/services/data_quality.py:9-15 | a name looks like an identifier iff its lower-cased form contains `id`, `uuid`, `guid` or `key` and none of `email`, `name`, `location`, `address`, `city` |
| DataQuality.EmailHitIff | backend/app/services/data_quality.py:22 | `re.search(r"@.+\.")` hits iff an `@` is followed, after at least one character and no newline, by a `.` |
| DataQuality.DotFollowsIff | backend/app/services/data_quality.py:22 | the `.+\.` tail after an `@` matches iff a `.` comes at least one non-newline character later |
| DataQuality.Sample | backend/app/services/data_quality.py:19 | `head(30)` keeps at most 30 values |
| DataQuality.EmailHits | backend/app/services/data_quality.py:22 | the hits never outnumber the sample |
| DataQuality.NameHits | backend/app/services/data_quality.py:31-35 | the hits never outnumber the sample |
| DataQuality.LooksLikeNameSeries | backend/app/services/data_quality.py:26-36 | the counting loop returns the name-series verdict, and an empty sample is never a name series |
| DataQuality.SeriesThreshold | backend/app/services/data_quality.py:23 | `hits / len >= 0.6` iff the sample is non-empty and `5 * hits >= 3 * len`; for 30 values, iff at least 18 hit |
| DataQuality.Round2Close | backend/app/services/data_quality.py:80 | `round(x, 2)` moves a value by at most half a hundredth and keeps it non-negative |
| DataQuality.PercentBounds | backend/app/services/data_quality.py:79-87 | a percentage is non-negative, 0.0 for an empty frame, within half a hundredth of the exact share, and at most 100.005 for a count within the total |
| DataQuality.TinyShareRoundsToZero | backend/app/services/data_quality.py:80 | one missing value in a hundred thousand rows rounds to 0.0 |
| DataQuality.Position | backend/app/services/data_quality.py:102-103 | the fractional position of a quantile lies among the indices of the sorted values |
| DataQuality.PositionMono | backend/app/services/data_quality.py:102-103 | a higher quantile has a position no lower |
| DataQuality.QuantileBetween | backend/app/services/data_quality.py:102-103 | the linearly interpolated quantile lies between its two neighbouring sorted values |
| DataQuality.QuantileMonotone | backend/app/services/data_quality.py:102-104 | on sorted values the 25% quantile is never above the 75% quantile, so the IQR is non-negative |
| DataQuality.CountOutside | backend/app/services/data_quality.py:113 | the values outside the fences are never more than the values |
| DataQuality.OutlierCountMeaning | backend/app/services/data_quality.py:96-114 | fewer than ten values or a zero IQR give no outliers; otherwise the count is the number of values outside `q1 - 1.5 iqr` and `q3 + 1.5 iqr` |
| DataQuality.ColumnRows | backend/app/services/data_quality.py:74-87 | one row of missing and unique counts and percentages per column, in frame order |
| DataQuality.NumericNames | backend/app/services/data_quality.py:67 | exactly the names of the numeric columns |
| DataQuality.CategoricalNames | backend/app/services/data_quality.py:68 | exactly the names of the other columns |
| DataQuality.OutlierRows | backend/app/services/data_quality.py:96-114 | every entry is a numeric column with its outlier count |
| DataQuality.OutlierRowsCover | backend/app/services/data_quality.py:96-114 | every numeric column has its entry |
| DataQuality.SumZeroIff | backend/app/services/data_quality.py:122-125 | the sum of the missing percentages is 0 iff each of them is |
| DataQuality.MissingPercents | backend/app/services/data_quality.py:79 | the `missing_percent_by_column` items, in column order |
| DataQuality.MissingInsightsSound | backend/app/services/data_quality.py:134-138 | each missing-values insight is one of the top entries with at least 10%, high iff at least 30% |
| DataQuality.OutlierInsightsSound | backend/app/services/data_quality.py:154-158 | each outlier insight is one of the top entries with at least one outlier, high iff at least 10 |
| DataQuality.Chartable | backend/app/services/data_quality.py:161 | exactly the numeric names that do not look like identifiers |
| DataQuality.IdInsights | backend/app/services/data_quality.py:172-188 | at most one identifier insight per column |
| DataQuality.PySliceTo | backend/app/services/data_quality.py:191 | `s[:n]` is a prefix, of length `n` capped by the length, or the length plus a negative `n` |
| DataQuality.BuildColumnRows | backend/app/services/data_quality.py:74-87 | the column loop builds the per-column rows |
| DataQuality.BuildOutlierRows | backend/app/services/data_quality.py:96-114 | the outlier loop builds the outlier dictionary |
| DataQuality.AppendMissingInsights | backend/app/services/data_quality.py:134-138 | the loop appends the missing-values insights |
| DataQuality.AppendOutlierInsights | backend/app/services/data_quality.py:154-158 | the loop appends the outlier insights |
| DataQuality.AppendIdInsights | backend/app/services/data_quality.py:172-188 | the loop appends the identifier insights |
| DataQuality.CollectInsights | backend/app/services/data_quality.py:119-188 | the insight rules, in the order the function runs them, give `AllInsights` |
| DataQuality.RowInsights | backend/app/services/data_quality.py:118-145 | the clean, missing-value and duplicate rules, run in order, give the first three parts of `AllInsights` |
| DataQuality.AnalyzeQuality | backend/app/services/data_quality.py:43-191 | fails (the `TypeError` of `int(s.isna().sum())` at line 77) iff a column name occurs twice; otherwise the report is the report of the frame, and the insights are the first `max_insights` of all the insights |
| DataQuality.InsightKinds | backend/app/services/data_quality.py:119-188 | each insight comes from the rule of its own kind |
| DataQuality.CleanIff | backend/app/services/data_quality.py:122-130 | the clean-dataset insight appears iff there are rows, no duplicates and every missing percentage rounds to 0; it then comes first |
| DataQuality.CleanWhenNothingMissing | backend/app/services/data_quality.py:122-130 | the clean check (sum of missing percentages is zero) holds iff there are rows, no duplicates and each column's percentage is zero |
| DataQuality.CleanDespiteMissing | backend/app/services/data_quality.py:122-130 | a frame with one missing value in a hundred thousand rows still gets the clean-dataset insight |
| DataQuality.MissingInsightsComplete | backend/app/services/data_quality.py:134-138 | every top entry of at least 10% gets its insight |
| DataQuality.MissingValuesIff | backend/app/services/data_quality.py:133-138 | a missing-values insight appears iff its column is among the top five by missing percentage, with at least 10%; high from 30%, medium below |
| DataQuality.TopMissingIsTop | backend/app/services/data_quality.py:39-40 | at most five entries, drawn from the input, and no entry left out has a larger percentage than one kept |
| DataQuality.OutlierInsightsComplete | backend/app/services/data_quality.py:154-158 | every top entry with an outlier gets its insight |
| DataQuality.OutliersIff | backend/app/services/data_quality.py:149-158 | an outlier insight appears iff its column is among the three largest counts, with at least one outlier; high from 10, medium below |
| DataQuality.TopOutliersIsTop | backend/app/services/data_quality.py:149-153 | at most three entries, drawn from the input, and no entry left out has more outliers than one kept |
| DataQuality.DuplicatesIff | backend/app/services/data_quality.py:141-146 | the duplicates insight appears iff the duplicate count is positive, medium below 50 and high from 50; a failing count reads as none |
| DataQuality.ChartableNonEmpty | backend/app/services/data_quality.py:161-163 | some column is chartable iff some numeric column has a name that does not look like an identifier |
| DataQuality.NumericIff | backend/app/services/data_quality.py:161-168 | the numeric-columns insight appears iff some column is chartable; it counts them, names the first five and marks whether there are more |
| DataQuality.IdInsightsIff | backend/app/services/data_quality.py:173-188 | an identifier insight names exactly each column that passes the unique, e-mail, name and column-name tests, with its unique percentage |
| DataQuality.PossibleIdIff | backend/app/services/data_quality.py:172-188 | identifier insights appear only for frames of at least 50 rows, and then exactly for the columns that are at least 95% unique, look like neither e-mails nor names, and have an identifier's name |
| Workspaces.ValidationErrors | backend/app/api/workspaces.py:102-112 | the update is refused iff a description longer than 500 characters or more than 2 team e-mails is sent; one message per failing field |
| Workspaces.ParseUuid | backend/app/api/workspaces.py:168-171 | an id text parses only when 32 characters remain once `urn:` and `uuid:` are removed, the braces around it are stripped and the hyphens are dropped, and then to a value below 2^128; 32 plain hexadecimal digits parse to their value |
| Workspaces.PlainHexInt | backend/app/api/workspaces.py:168-171 | `int(_, 16)` reads 32 plain hexadecimal digits as their value, which is below 2^128 |
| Workspaces.PrefixedDigits | backend/app/api/workspaces.py:168-171 | `0x` followed by thirty hexadecimal digits is not 32 plain digits, yet parses to the value of the thirty digits, so it is looked up rather than refused |
| Workspaces.HexPrefixParses | backend/app/api/workspaces.py:168-171 | `0x` and thirty zeros name the id 0 |
| Workspaces.ParseFormatted | backend/app/api/workspaces.py:168-171 | every canonical id text parses back to its value, so 400 is given only for texts that are not ids |
| Workspaces.FirstByEmail | backend/app/api/workspaces.py:214 | the first user with the e-mail, or none when no user has it |
| Workspaces.TeamFor | backend/app/api/workspaces.py:210-216 | the new team holds only registered users of sent e-mails other than the caller, and every such user |
| Workspaces.EmptyUpdateKeepsSettings | backend/app/api/workspaces.py:194-219 | an update with no field set changes nothing |
| Workspaces.CsvSwitchStopsFetching | backend/app/api/workspaces.py:197-205 | switching to `CSV` clears the connection fields and turns polling off, so neither fetcher is chosen |
| Workspaces.SwitchClearsOtherSource | backend/app/api/workspaces.py:197-219 | `API` clears the database fields, `DB` clears the URL; fields sent in the payload win over the clearing, and fields neither sent nor cleared keep their values |
| Workspaces.TeamAfterUpdate | backend/app/api/workspaces.py:210-222 | after a valid update the team, as read back after the commit, has at most two members, no repeats, never the caller, each the user of a sent e-mail |
| Workspaces.RepeatedAddress | backend/app/api/workspaces.py:210-221 | one address sent twice: the commit succeeds iff its user is already on the team, and the team is then that one user |
| Workspaces.PersistedTeam | backend/app/api/workspaces.py:212-222 | the team read back after the commit holds each appended user once, and no one else |
| Workspaces.RewriteTeam | backend/app/api/workspaces.py:212-216 | the rewrite loop builds the team of `TeamFor` |
| Workspaces.Workspace.Apply | backend/app/api/workspaces.py:194-222 | the assignments of a committed update give the settings of `Updated` |
| Workspaces.Workspace.Clear | backend/app/api/workspaces.py:197-205 | the clearing for the new source |
| Workspaces.Workspace.ClearConnection | backend/app/api/workspaces.py:200 | the six connection columns except `db_type` become null and nothing else changes |
| Workspaces.Workspace.ClearCredentials | backend/app/api/workspaces.py:200 | `db_user`, `db_password`, `db_name` and `db_query` become null and nothing else changes |
| Workspaces.Workspace.Stamp | backend/app/api/workspaces.py:207-208 | sending a description stamps the update time |
| Workspaces.Workspace.AssignSent | backend/app/api/workspaces.py:218-219 | every field sent is assigned its value, and no other |
| Workspaces.Workspace.AssignSource | backend/app/api/workspaces.py:218-219 | the description, source and API columns sent are assigned, the rest of the settings kept |
| Workspaces.Workspace.AssignPolling | backend/app/api/workspaces.py:218-219 | the polling columns sent are assigned, the rest of the settings kept |
| Workspaces.Workspace.AssignConnection | backend/app/api/workspaces.py:218-219 | the connection columns sent are assigned, the rest of the settings kept |
| Workspaces.Workspace.AssignCredentials | backend/app/api/workspaces.py:218-219 | the login and query columns sent are assigned, the rest of the settings kept |
| Workspaces.FindWorkspace | backend/app/api/workspaces.py:172 | the workspace with the id, or none when there is none |
| Workspaces.GetWorkspace | backend/app/api/workspaces.py:166-179 | 400 iff the id does not parse, 404 iff no workspace has it, 403 iff the caller is neither owner nor team member; otherwise the workspace |
| Workspaces.UpdateImpliesAccess | backend/app/api/workspaces.py:181-221 | an update succeeds iff the payload is valid, the id names a workspace, the caller owns it and the commit succeeds (values fit their columns, no team row inserted twice); whoever may update may also read |
| Workspaces.MeanOf | backend/app/api/workspaces.py:322-328 | a value is found only where the nested `summary_stats[column]["mean"]` lookup succeeds |
| Workspaces.UploadsOfType | backend/app/api/workspaces.py:315-318 | exactly the uploads of the workspace and type |
| Workspaces.Trend | backend/app/api/workspaces.py:320-330 | one point per upload, with its date and mean |
| Workspaces.TrendInOrder | backend/app/api/workspaces.py:315-330 | the trend has one point per upload of the workspace and type, oldest first |
| Workspaces.TrendPoints | backend/app/api/workspaces.py:320-330 | the loop builds the points of `Trend` |
| Workspaces.WorkspaceDb.CreateWorkspace | backend/app/api/workspaces.py:142-157 | refused with 400 once the caller owns three workspaces; otherwise one new workspace, owned by the caller, is added, so no owner passes three |
| Workspaces.WorkspaceDb.UpdateWorkspace | backend/app/api/workspaces.py:181-223 | the checks of `UpdateCheck`, with a 500 where the commit raises, then the assignments of `Updated` on the one workspace found; nothing else changes |
| Workspaces.WorkspaceDb.GetTrendData | backend/app/api/workspaces.py:300-332 | the access check of `get_workspace`, then the trend of the workspace's uploads of the type |
| Auth.GenerateOtp | backend/app/api/auth.py:24-25 | the code is the six decimal digits of the draw from 100000 to 999999, never starting with 0 |
| Auth.NewPasswordError | backend/app/api/auth.py:152-158 | a sign-up or reset password is accepted iff it has 8 to 72 characters; over 72 gives the too-long message |
| Auth.LoginPasswordError | backend/app/api/auth.py:198-202 | a login password is accepted iff it has at most 72 characters |
| Auth.NewPasswordsLogIn | backend/app/api/auth.py:152-202 | every password accepted at sign-up is accepted at login; a login-length password under 8 is refused only at sign-up, as too short |
| Auth.SendOtpOutcome | backend/app/api/auth.py:102-140 | 400 iff the address is a Google account or a verified e-mail account; an account of another type gets no reply and no change; otherwise the account is unverified, of e-mail type, with the new code expiring five minutes later |
| Auth.VerifyOtpOutcome | backend/app/api/auth.py:162-186 | success iff the password is valid, the account exists, holds a code, the code has not expired (expired from the expiry instant on) and it matches; 404, no code, expired and wrong code in that order; success verifies the account, stores the hash and clears the code |
| Auth.LoginEmailOutcome | backend/app/api/auth.py:207-222 | a token for the account iff it exists, is verified and the password matches its hash; 403 iff it exists and is unverified; otherwise 401 |
| Auth.SendPasswordResetOutcome | backend/app/api/auth.py:243-262 | the same reply for every address; only an e-mail account gets a new code, expiring five minutes later, and nothing else changes |
| Auth.ResetPasswordOutcome | backend/app/api/auth.py:284-326 | success iff the account exists, is not a Google account, holds an unexpired code (expired only after the expiry instant) and the code matches; an expired code is cleared before the 400; success replaces the hash, clears the code and verifies the account |
| Auth.SendThenVerify | backend/app/api/auth.py:102-186 | a code sent to a new or unverified address verifies the account iff it is used before its expiry |
| Auth.VerifyIsSingleUse | backend/app/api/auth.py:179-184 | after a successful verification every further attempt finds no code |
| Auth.ResetThenLogin | backend/app/api/auth.py:319-323 | after a reset the new password logs in and any other password is refused with 401 |
| Auth.ExpiryInstant | backend/app/api/auth.py:252-312 | at its expiry instant a reset code still resets the password while `verify_otp` already refuses the same code as expired |
| Auth.GoogleAccountsKeepNoCode | backend/app/api/auth.py:111-113 | a Google account is refused by the reset whatever its stored code, and gets no code from either sending endpoint |
| Auth.Lookup | backend/app/api/auth.py:106 | the first account with the address, or none when no account has it |
| Auth.StoredKeepsUnique | backend/app/api/auth.py:135-136 | storing a handler's account keeps one account per address |
| Auth.AccountTable.SendOtp | backend/app/api/auth.py:102-140 | the reply and the stored account are those of `SendOtpOutcome` |
| Auth.AccountTable.VerifyOtp | backend/app/api/auth.py:162-186 | the reply and the stored account are those of `VerifyOtpOutcome` |
| Auth.AccountTable.LoginEmail | backend/app/api/auth.py:207-222 | the reply of `LoginEmailOutcome`, with the table unchanged |
| Auth.AccountTable.SendPasswordReset | backend/app/api/auth.py:243-262 | the reply and the stored account are those of `SendPasswordResetOutcome` |
| Auth.AccountTable.ResetPassword | backend/app/api/auth.py:284-326 | the reply and the stored account are those of `ResetPasswordOutcome` |
| ConnectionManager.Joined | backend/app/core/connection_manager.py:24-34 | the socket is appended to the key's list, created when absent; other keys keep their lists and no list is empty |
| ConnectionManager.Removed | backend/app/core/connection_manager.py:44 | `list.remove` leaves one fewer of the socket and the same number of every other |
| ConnectionManager.RemovedFirst | backend/app/core/connection_manager.py:44 | `list.remove` takes out the first occurrence and keeps the rest in order |
| ConnectionManager.Left | backend/app/core/connection_manager.py:36-50 | one occurrence of the socket leaves the key's list, a list left empty is deleted with its key, other keys are untouched, and an absent key or socket changes nothing |
| ConnectionManager.JoinThenLeave | backend/app/core/connection_manager.py:20-50 | joining then leaving with a new socket restores the registry; otherwise the channel keeps the same sockets |
| ConnectionManager.Manager.Connect | backend/app/core/connection_manager.py:20-34 | a `workspace` or `user` socket joins that registry only; any other kind changes nothing |
| ConnectionManager.Manager.Disconnect | backend/app/core/connection_manager.py:36-50 | the socket leaves the workspace registry for `workspace` and the user registry for any other kind; the other registry is unchanged |
| UserAction.ReplaceChar | backend/app/api/user_action.py:59 | `replace(" ", "_")` replaces each space and keeps every other character |
| UserAction.LastIndexOf | backend/app/api/user_action.py:66 | the position of the last dot, if any, as `rsplit('.', 1)` splits |
| UserAction.Renamed | backend/app/api/user_action.py:64-70 | the renamed file name is `_` and the short id longer than the base |
| UserAction.TargetPath | backend/app/api/user_action.py:62-70 | the path is `folder/base` when that is free, and otherwise the renamed path, which differs from it |
| UserAction.Written | backend/app/api/user_action.py:54-73 | one entry per candidate, in order, with its content |
| UserAction.Owned | backend/app/api/user_action.py:35 | exactly the caller's workspaces |
| UserAction.UploadsOf | backend/app/api/user_action.py:53 | exactly the uploads of the workspace |
| UserAction.CandidateOf | backend/app/api/user_action.py:59-66 | the short id used for renaming has six characters |
| UserAction.ManifestOf | backend/app/api/user_action.py:28-51 | one manifest entry per exported workspace, in order |
| UserAction.WriteCandidate | backend/app/api/user_action.py:62-73 | one upload is written at its target path (renamed when `folder/base` is taken) and its path joins the recorded set |
| UserAction.ExportWorkspace | backend/app/api/user_action.py:53-73 | the upload loop writes the entries of `Written` and records their paths |
| UserAction.ExportUserData | backend/app/api/user_action.py:17-75 | the archive holds the uploads with content of the caller's workspaces at their target paths, in order, then the manifest |
| UserAction.ConfigPathIsUnique | backend/app/api/user_action.py:75 | the manifest never collides with an upload, whose paths all have a folder |
| UserAction.WrittenPath | backend/app/api/user_action.py:62-70 | each written path is the plain or the renamed path of its candidate |
| UserAction.DuplicatePathAsWritten | backend/app/api/user_action.py:64-73 | three uploads in one folder, the first named like the renaming of the third, give two entries with the same path |
| UserAction.FreshPath | backend/app/api/user_action.py:64-73 | the corrected renaming repeats until the path is free |
| UserAction.WrittenFresh | backend/app/api/user_action.py:54-73 | the corrected export has one entry per candidate, with its content |
| UserAction.WrittenFreshDistinct | backend/app/api/user_action.py:64-73 | with the renamed path checked again no two entries share a path |
| Guardian.Origins | backend/app/main.py:35-39 | the allow-list has three origins: `FRONTEND_URL`, the local address and the deployed frontend |
| Guardian.Decide | backend/app/main.py:123-161 | `/ping`, methods other than POST, PUT, PATCH and DELETE, and exempt paths pass; otherwise a foreign origin is refused, then a missing token; nothing else is refused |
| Guardian.AnyTokenPasses | backend/app/main.py:156-161 | a checked request from an allowed or absent origin passes iff it carries a non-empty token, whatever its value |
| Guardian.OriginCheckedFirst | backend/app/main.py:149-153 | a foreign origin is refused even with a token |
| Guardian.PasswordResetNeedsToken | backend/app/main.py:132-145 | the two password-reset routes are not exempt: without a token they are refused |
| UploadLimits.UploadCountCounts | backend/app/services/upload_limits.py:11-16 | the count is the number of uploads of the workspace |
| UploadLimits.UploadCountAppend | backend/app/services/upload_limits.py:11-16 | uploads of other workspaces do not count and each upload of the workspace counts once |
| UploadLimits.EnforceUploadLimit | backend/app/services/upload_limits.py:19-33 | 400 with the limit message iff the count has reached the limit |
| UploadLimits.EnforceAgreesWithReached | backend/app/services/upload_limits.py:36-44 | the two checks agree on every state |
| UploadLimits.AcceptedUploadStaysWithinLimit | backend/app/services/upload_limits.py:19-33 | an accepted upload raises the count by one, so the count never passes the limit |
| Feedbacks.MessageError | backend/app/api/feedbacks.py:15 | a message is accepted iff it has 5 to 5000 characters |
| Feedbacks.CreateFeedbackReply | backend/app/api/feedbacks.py:23-62 | 201 iff the message is valid, the user has not submitted and the commit succeeds; 403 iff already submitted; 500 iff the commit fails |
| Feedbacks.FeedbackTable.CreateFeedback | backend/app/api/feedbacks.py:23-62 | on success one record is added and the user's flag is set; on any refusal or rollback nothing changes |
| Feedbacks.SecondSubmissionRefused | backend/app/api/feedbacks.py:29-44 | after a success the same user's next valid submission is refused with 403 |
| Notifications.OwnRows | backend/app/api/notifications.py:27 | exactly the caller's rows |
| Notifications.ListIsOwnNewestFirst | backend/app/api/notifications.py:25-30 | only the caller's rows, newest first, at most twenty, and all of them when there are no more than twenty |
| Notifications.ListKeepsNewest | backend/app/api/notifications.py:27-29 | no row of the caller left out of the list is newer than one listed |
| Notifications.FindOwn | backend/app/api/notifications.py:34-36 | the caller's row with the id, or none |
| Notifications.ReadAllMeaning | backend/app/api/notifications.py:47-54 | after `read-all` every row of the caller is read, and every other row is exactly as it was |
| Notifications.NotificationTable.GetNotifications | backend/app/api/notifications.py:25-30 | the list of `ListNotifications` |
| Notifications.NotificationTable.MarkAsRead | backend/app/api/notifications.py:32-44 | 404 with no change unless the row is the caller's; otherwise only that row changes, to read, and it is returned |
| Notifications.NotificationTable.MarkAllAsRead | backend/app/api/notifications.py:47-54 | the rows become those of `AllMarkedRead` |
| Notifications.NotificationTable.DeleteNotification | backend/app/api/notifications.py:57-66 | the caller's row with the id is removed; a missing or foreign id changes nothing |
| Notifications.MarkReadIdempotent | backend/app/api/notifications.py:40-44 | marking twice is marking once |
| Notifications.Route | backend/app/api/notifications.py:25-66 | a `DELETE` is served only on `/<id>`, and no route deletes every notification |
| Notifications.NoClearAllRoute | backend/app/api/notifications.py:25-66 | `DELETE /notifications/` reaches no route; only `GET` is served on that path |
| Notifications.RouteWithClearAll | backend/app/api/notifications.py:57-66 | the corrected router adds `DELETE /` and keeps every other route |
| Notifications.ClearedRows | backend/app/api/notifications.py:57-66 | exactly the other users' rows remain |
| Notifications.ClearAllIntended | backend/app/api/notifications.py:57-66 | with the endpoint added, clearing leaves the caller an empty list and every other user's notifications as they were |
| Notifications.ClearKeepsOthers | backend/app/api/notifications.py:57-66 | deleting the caller's rows leaves every other user's rows, in order |
| Notifications.ClearLeavesNoOwn | backend/app/api/notifications.py:57-66 | deleting the caller's rows leaves the caller none |
| OtpCells.Blanks | frontend/src/pages/Register.tsx:157 | six empty cells |
| OtpCells.DigitsUtf16Length | frontend/src/pages/Register.tsx:186 | a string of ASCII digits has one UTF-16 unit per character, so `length` counts digits |
| OtpCells.JoinedCells | frontend/src/pages/Register.tsx:184-186 | joining valid cells gives digits only, one per filled cell |
| OtpCells.FilledAll | frontend/src/pages/Register.tsx:184-186 | every cell is filled iff the filled count is the number of cells |
| OtpCells.CompleteIffAllFilled | frontend/src/pages/Register.tsx:184-186 | the joined code has length 6 iff no cell is empty, and it is then six digits |
| Register.AcceptedValuesAreCells | frontend/src/pages/Register.tsx:80-82 | a typed value is accepted iff it is empty or one digit |
| Register.ChangeMeaning | frontend/src/pages/Register.tsx:80-85 | only the edited cell can change, a rejected value changes nothing, and the cells stay valid |
| Register.ChangeFocus | frontend/src/pages/Register.tsx:86-88 | the focus moves to the next cell only when a digit was typed before the last cell |
| Register.PasteMeaning | frontend/src/pages/Register.tsx:91-111 | a paste keeps the cells valid; six or more digits make the code exactly the first six; no digit changes nothing |
| Register.PasteCompletes | frontend/src/pages/Register.tsx:94-97 | pasting six or more digits completes the code, whatever it held |
| Register.PasteFocus | frontend/src/pages/Register.tsx:98-109 | no focus change iff the text holds no digit; otherwise a cell among the six, the one after the last written cell when there is one |
| Register.SendOtpError | frontend/src/pages/Register.tsx:169-176 | the request is refused iff the address is empty or has no `@` |
| Register.Wait | frontend/src/pages/Register.tsx:137-145 | a resend never waits; a first send waits until three seconds have passed, and not at all after that |
| Register.FirstSendTakesThreeSeconds | frontend/src/pages/Register.tsx:137-145 | a first send updates the page no sooner than three seconds after it began |
| Register.VerifyOtpError | frontend/src/pages/Register.tsx:182-188 | the checks in order: a non-blank name, a six-unit code, equal passwords, at least eight units; each message iff the earlier checks pass and that one fails |
| Register.CodeCheckIsAllFilled | frontend/src/pages/Register.tsx:184-186 | with valid cells the code check passes iff every cell is filled |
| Register.WriteFrom | frontend/src/pages/Register.tsx:104-106 | the paste loop writes the digits from `index` on, one per cell, and changes no other cell |
| Register.RegisterPage.OtpChange | frontend/src/pages/Register.tsx:80-89 | the cells become `Changed` and the focus `ChangeFocus`; nothing else changes |
| Register.RegisterPage.OtpPaste | frontend/src/pages/Register.tsx:91-111 | the cells become `Pasted` and the focus `PasteFocus`; nothing else changes |
| Register.RegisterPage.SendOtp | frontend/src/pages/Register.tsx:120-167 | the wait of `Wait`; success opens the code step with empty cells and removes the stored address; failure changes nothing |
| Register.RegisterPage.HandleSendOtp | frontend/src/pages/Register.tsx:169-176 | the API is called iff the address passes `SendOtpError` |
| Register.RegisterPage.HandleVerifyOtp | frontend/src/pages/Register.tsx:182-205 | the API is called iff `VerifyOtpError` finds nothing; a created account removes the three stored entries |
| Register.FreshCodeIsIncomplete | frontend/src/pages/Register.tsx:156-157 | right after a send the code is incomplete, so creating the account is refused until six digits are entered |
| ForgotPassword.LastChar | frontend/src/pages/ForgotPassword.tsx:57 | `slice(-1)` is the last character, or nothing |
| ForgotPassword.ChangeMeaning | frontend/src/pages/ForgotPassword.tsx:52-58 | typing keeps the cells valid, changes at most the edited cell, ignores a value with a non-digit, and keeps the last digit typed |
| ForgotPassword.ChangeFocus | frontend/src/pages/ForgotPassword.tsx:59-61 | the focus moves on only after a digit typed before the last cell |
| ForgotPassword.PastedDigits | frontend/src/pages/ForgotPassword.tsx:75 | at most six digits are kept |
| ForgotPassword.PasteMeaning | frontend/src/pages/ForgotPassword.tsx:73-82 | six or more digits replace the code by the first six; fewer change nothing, wherever the text is pasted |
| ForgotPassword.VerifyCodeError | frontend/src/pages/ForgotPassword.tsx:142-147 | the checks in order: a six-unit code, equal passwords, at least eight units; each message iff the earlier checks pass and that one fails |
| ForgotPassword.CodeCheckIsAllFilled | frontend/src/pages/ForgotPassword.tsx:144-145 | with valid cells the code check passes iff every cell is filled |
| ForgotPassword.StepProgress | frontend/src/pages/ForgotPassword.tsx:164-172 | one to three dots; three iff the step is `success`, two iff `verify` or `reset` |
| ForgotPassword.ProgressGrows | frontend/src/pages/ForgotPassword.tsx:164-172 | the steps light strictly more dots as the reset goes on, and an unknown stored step counts as the first |
| ForgotPassword.ForgotPasswordPage.constructor | frontend/src/pages/ForgotPassword.tsx:11-13 | the step is the stored one when it is non-empty, and `email` otherwise |
| ForgotPassword.ForgotPasswordPage.OtpChange | frontend/src/pages/ForgotPassword.tsx:52-62 | the cells become `Changed` and the focus `ChangeFocus` |
| ForgotPassword.ForgotPasswordPage.OtpPaste | frontend/src/pages/ForgotPassword.tsx:73-82 | the cells become `Pasted`; the focus moves to the last cell iff the code was replaced |
| ForgotPassword.ForgotPasswordPage.SendCode | frontend/src/pages/ForgotPassword.tsx:87-129 | after a sent request the page waits three seconds and moves to the code step, emptying the cells only for a resend; a failure changes nothing |
| ForgotPassword.ForgotPasswordPage.VerifyCode | frontend/src/pages/ForgotPassword.tsx:142-162 | the API is called iff `VerifyCodeError` finds nothing; success shows the success step and removes both stored entries |
| TeamMembers.AddError | frontend/src/pages/WorkSpaceDetail/TeamMembersCard.tsx:57-70 | an empty input is ignored; otherwise an address without `@`, one already listed, then a full list of two is refused, each iff the earlier checks pass |
| TeamMembers.AddKeepsLimit | frontend/src/pages/WorkSpaceDetail/TeamMembersCard.tsx:67-73 | an accepted address keeps the list within two entries, and a list of two accepts nothing |
| TeamMembers.Removed | frontend/src/pages/WorkSpaceDetail/TeamMembersCard.tsx:76-78 | every occurrence of the address goes and every other address stays |
| TeamMembers.RemovedInOrder | frontend/src/pages/WorkSpaceDetail/TeamMembersCard.tsx:76-78 | removal works piece by piece over a concatenation, and leaves a list without the address unchanged, so the rest keep their order |
| TeamMembers.RemoveUndoesAdd | frontend/src/pages/WorkSpaceDetail/TeamMembersCard.tsx:72-78 | removing an address just added gives back the list, and removing keeps the list within the limit |
| TeamMembers.WithoutKeepsDistinct | frontend/src/pages/WorkSpaceDetail/TeamMembersCard.tsx:76-78 | removing keeps a list without repeats without repeats |
| TeamMembers.TeamCard.AddEmail | frontend/src/pages/WorkSpaceDetail/TeamMembersCard.tsx:57-74 | an accepted address is appended and the input cleared; otherwise nothing changes; the limit is kept |
| TeamMembers.TeamCard.RemoveEmail | frontend/src/pages/WorkSpaceDetail/TeamMembersCard.tsx:76-78 | the list becomes `Removed`, and the limit is kept |
| TeamMembers.TeamCard.Cancel | frontend/src/pages/WorkSpaceDetail/TeamMembersCard.tsx:51-55 | the workspace's member list comes back and the input is emptied |
| TeamMembers.TeamCard.Save | frontend/src/pages/WorkSpaceDetail/TeamMembersCard.tsx:27-49 | the list is sent; a success replaces it by the saved members, a failure changes nothing |
| Accounts.FirstMatch | frontend/src/pages/Accounts.tsx:115-116 | `find` gives the first rule that matches, or none when no rule does |
| Accounts.ParseUA | frontend/src/pages/Accounts.tsx:85-118 | a missing, empty or `unknown` agent is an unknown device; any other is its browser on its system |
| Accounts.EdgeBeforeChrome | frontend/src/pages/Accounts.tsx:90-103 | an agent with `Edg/` is Edge although it also names Chrome |
| Accounts.ChromeIsNeverSafari | frontend/src/pages/Accounts.tsx:90-103 | an agent naming `Chrome/` is never Safari or Internet Explorer, and is one of the Chromium browsers, Firefox or Chrome |
| Accounts.SafariRuleWithoutChrome | frontend/src/pages/Accounts.tsx:101 | without `Chrome` the Safari rule is the presence of `Safari/` |
| Accounts.ChromeAfterSafariIsNotSafari | frontend/src/pages/Accounts.tsx:101 | an agent whose every `Safari/` is followed by `Chrome` on its line is not Safari |
| Accounts.AndroidReportedAsLinux | frontend/src/pages/Accounts.tsx:106-113 | every agent with `Linux; Android` and no earlier system is reported as Linux |
| Accounts.AndroidAgentIsLinux | frontend/src/pages/Accounts.tsx:106-116 | a real Android agent is reported as Linux |
| Accounts.AndroidFirstIsIntended | frontend/src/pages/Accounts.tsx:106-113 | with Android tried first, Android agents are Android and every agent without `Android` gets the same answer as before |
| Accounts.AndroidFirstFindsAndroid | frontend/src/pages/Accounts.tsx:106-113 | with Android tried first, an Android agent naming no desktop system is Android |
| Accounts.AndroidFirstKeepsOthers | frontend/src/pages/Accounts.tsx:106-113 | with Android tried first, an agent without `Android` gets the same system as before |
| Accounts.FirstMatchAt | frontend/src/pages/Accounts.tsx:106-113 | the first rule that matches is the one `find` returns |
| Accounts.LastUsed | frontend/src/pages/Accounts.tsx:218-220 | the time of the first logged sign-in with the provider, present iff such an entry exists |
| Accounts.ProcessDelete | frontend/src/pages/Accounts.tsx:265-269 | no request unless a user is signed in and the typed text is their address; the account is deleted iff it is and the request succeeds |
| Accounts.OnlyOwnAddressDeletes | frontend/src/pages/Accounts.tsx:265-269 | without a signed-in user no text confirms deletion, and with one only the exact address does |
| NotificationsPage.DigitRunEnd | frontend/src/components/NotificationsPage.tsx:45 | the greedy `\d+` run from a position ends at the end or before a character that is not a digit |
| NotificationsPage.DigitRunIsDigits | frontend/src/components/NotificationsPage.tsx:45 | everything the `\d+` run passes over is a digit |
| NotificationsPage.SpaceRunEnd | frontend/src/components/NotificationsPage.tsx:45 | the greedy `\s*` run from a position ends at the end or before a character that is not white space |
| NotificationsPage.SpaceRunIsSpace | frontend/src/components/NotificationsPage.tsx:45 | everything the `\s*` run passes over is white space |
| NotificationsPage.LazyClose | frontend/src/components/NotificationsPage.tsx:41 | the lazy `(.+?)'` stops at the first quote after the name, with no line break before it |
| NotificationsPage.SearchFrom | frontend/src/components/NotificationsPage.tsx:41-61 | a position found is at or after the start and a match begins there |
| NotificationsPage.SearchFromNone | frontend/src/components/NotificationsPage.tsx:41-61 | the search finds nothing iff no position from the start on matches |
| NotificationsPage.SearchFromLeftmost | frontend/src/components/NotificationsPage.tsx:41-61 | no position before the one found matches |
| NotificationsPage.First | frontend/src/components/NotificationsPage.tsx:41-61 | `match` finds nothing iff no position matches; the numeric captures are non-empty digit runs |
| NotificationsPage.FirstAtStart | frontend/src/components/NotificationsPage.tsx:41-61 | a match at the start of the message is the one returned |
| NotificationsPage.Summary | frontend/src/components/NotificationsPage.tsx:66-71 | `Data updated` iff no part was found; otherwise `Schema updated: ` and the parts joined by commas |
| NotificationsPage.WorkspaceRoundTrip | frontend/src/components/NotificationsPage.tsx:40-41 | a message opening with `Data updated in '<name>'` shows that name, for any one-line name without a quote |
| NotificationsPage.RowsRoundTrip | frontend/src/components/NotificationsPage.tsx:54-59 | `rows x → y` reports the difference with its sign, and nothing when the count did not change |
| NotificationsPage.ColumnsRoundTrip | frontend/src/components/NotificationsPage.tsx:61-64 | `columns x → y` reports the new count |
| NotificationsPage.CountsRoundTrip | frontend/src/components/NotificationsPage.tsx:45-52 | `(+a/-b)` names the added and removed columns that are not zero, with the plural for more than one |
| NotificationsPage.QuietMessage | frontend/src/components/NotificationsPage.tsx:36-74 | a message with no `D`, no `(` and no arrow shows the default name and `Data updated` |
| NotificationsPage.StructuralMessageShowsNothing | frontend/src/components/NotificationsPage.tsx:36-74 | the structural-change notification the backend creates matches none of the expressions, so it is shown as `Workspace` and `Data updated` |
| NotificationsPage.WithoutId | frontend/src/components/NotificationsPage.tsx:114 | exactly the entries whose id differs |
| NotificationsPage.DeleteKeepsOthers | frontend/src/components/NotificationsPage.tsx:114 | deleting takes out every entry with the id and keeps the others in order |
| NotificationsPage.WithoutAbsentId | frontend/src/components/NotificationsPage.tsx:114 | deleting an id the list does not hold changes nothing |
| NotificationsPage.ClearAllIsNeverServed | frontend/src/components/NotificationsPage.tsx:117-132 | every delete of one id reaches the backend's route, but the clear request reaches none; with the route added it is served |
| NotificationsPage.ActivityPage.Load | frontend/src/components/NotificationsPage.tsx:90-103 | a fetched list replaces the page's list, and the read-all request follows iff one entry is unread; a failed fetch keeps the list |
| NotificationsPage.ActivityPage.Delete | frontend/src/components/NotificationsPage.tsx:111-124 | the entry goes, and the old list comes back when the request fails |
| NotificationsPage.ActivityPage.ClearAll | frontend/src/components/NotificationsPage.tsx:126-137 | the list empties, and comes back when the request fails |
| NotificationsPage.LazyCloseFinds | frontend/src/components/NotificationsPage.tsx:41 | the lazy scan stops at the first quote after a name that has no quote and no line break |
| NotificationsPage.CountsAt | frontend/src/components/NotificationsPage.tsx:45 | a match of the counts expression begins with `(+` and captures two non-empty digit runs |
| NotificationsPage.ArrowAt | frontend/src/components/NotificationsPage.tsx:54-61 | a match of an arrow expression begins with its keyword and captures two non-empty digit runs |
| NotificationsPage.ArrowAtStart | frontend/src/components/NotificationsPage.tsx:54-61 | the leftmost match in a text `keyword x → y` is that text's, so both numbers come back |
| DataHistory.Scheduled | frontend/src/pages/WorkSpaceDetail/DataHistoryCard.tsx:156 | the scheduled list is a permutation of the polled and queried uploads, newest first |
| DataHistory.ScheduledKeepsTies | frontend/src/pages/WorkSpaceDetail/DataHistoryCard.tsx:156 | uploads made at the same moment keep the order they came in (the sort is stable) |
| DataHistory.ScheduledNewestFirst | frontend/src/pages/WorkSpaceDetail/DataHistoryCard.tsx:156 | the head of the scheduled list is an upload no other upload is newer than |
| DataHistory.FirstOf | frontend/src/pages/WorkSpaceDetail/DataHistoryCard.tsx:161 | the first manual upload, else the first scheduled one, and nothing iff both lists are empty |
| DataHistory.WithoutUpload | frontend/src/pages/WorkSpaceDetail/DataHistoryCard.tsx:198-199 | exactly the uploads whose id differs |
| DataHistory.DeleteKeepsOrder | frontend/src/pages/WorkSpaceDetail/DataHistoryCard.tsx:198-199 | deleting takes out every upload with the id and keeps the rest in order |
| DataHistory.Label | frontend/src/pages/WorkSpaceDetail/DataHistoryCard.tsx:64 | the label is a suffix of the path with no separator in it, and what precedes it (if anything) is a separator |
| DataHistory.LabelOfPath | frontend/src/pages/WorkSpaceDetail/DataHistoryCard.tsx:99 | a file name under any directory, with either separator, is shown as just the name |
| DataHistory.TrackableIff | frontend/src/pages/WorkSpaceDetail/DataHistoryCard.tsx:100 | the Track button appears iff the type name contains `int` or `float` somewhere |
| DataHistory.ChartData | frontend/src/pages/WorkSpaceDetail/DataHistoryCard.tsx:16-22 | no bars without statistics; every bar has a defined mean; at most one bar per column |
| DataHistory.BarsExact | frontend/src/pages/WorkSpaceDetail/DataHistoryCard.tsx:18-21 | a bar is drawn for a column iff that column's mean is defined, with that mean |
| DataHistory.FirstValueIsFirst | frontend/src/pages/WorkSpaceDetail/DataHistoryCard.tsx:110 | the first non-null value, and none iff every value is null |
| DataHistory.LastValueIsLast | frontend/src/pages/WorkSpaceDetail/DataHistoryCard.tsx:111 | the last non-null value, and none iff every value is null |
| DataHistory.OverallChange | frontend/src/pages/WorkSpaceDetail/DataHistoryCard.tsx:109-115 | the notice iff fewer than two points; a non-zero change needs a non-zero first value |
| DataHistory.ChangeSign | frontend/src/pages/WorkSpaceDetail/DataHistoryCard.tsx:112-115 | for a positive first value, the badge shows no fall iff the last value is at least the first |
| DataHistory.SingleValueNoChange | frontend/src/pages/WorkSpaceDetail/DataHistoryCard.tsx:112-115 | with one non-null value among the points the change is zero |
| DataHistory.DataHistoryCard.Load | frontend/src/pages/WorkSpaceDetail/DataHistoryCard.tsx:148-164 | the manual list as returned, the scheduled list merged and sorted, and the first upload selected |
| DataHistory.DataHistoryCard.ChooseTab | frontend/src/pages/WorkSpaceDetail/DataHistoryCard.tsx:232-236 | a tab selects the first upload of its list (or none) and shows the snapshot view |
| DataHistory.DataHistoryCard.AskDelete | frontend/src/pages/WorkSpaceDetail/DataHistoryCard.tsx:69 | the delete button opens the confirmation for its upload and changes nothing else |
| DataHistory.DataHistoryCard.DeleteUpload | frontend/src/pages/WorkSpaceDetail/DataHistoryCard.tsx:195-211 | the upload leaves both lists; the selection moves to the first remaining upload only when the deleted one was selected |
| DataHistory.DataHistoryCard.TrackColumn | frontend/src/pages/WorkSpaceDetail/DataHistoryCard.tsx:184-193 | the column is tracked at once; the trend view opens only when the update succeeds |
| DataHistory.DeletedIsGone | frontend/src/pages/WorkSpaceDetail/DataHistoryCard.tsx:195-207 | after a delete no listed or selected upload carries the deleted id |
| AuthContext.SaveAuth | frontend/src/context/AuthContext.tsx:53-57 | the user is signed in, stored and flagged as a successful login; the phase and the retry state are untouched |
| AuthContext.ClearAuth | frontend/src/context/AuthContext.tsx:59-69 | nobody is signed in, nothing is stored, the retry counter is zero and no retry is pending |
| AuthContext.ReplySettles | frontend/src/context/AuthContext.tsx:86-93 | a reply settles the check with the counter reset, and signs in its user when it has one |
| AuthContext.ErrorResponseSignsOut | frontend/src/context/AuthContext.tsx:117-121 | an error response settles the check signed out with nothing stored |
| AuthContext.NoResponseRetries | frontend/src/context/AuthContext.tsx:101-114 | without a response the check retries iff the counter is below twelve, else becomes unreachable; the user is never touched |
| AuthContext.AtMostTwelveRetries | frontend/src/context/AuthContext.tsx:41-114 | a server that never answers is retried exactly twelve times from a fresh counter, then unreachable |
| AuthContext.StaysUnreachable | frontend/src/context/AuthContext.tsx:101-113 | once unreachable with the counter spent, further failures change nothing |
| AuthContext.HandleError | frontend/src/context/AuthContext.tsx:71-81 | 429 shows the rate-limit message, otherwise the detail or the fallback; the error is rethrown iff the status is not 401 |
| AuthContext.AuthProvider.CheckSession | frontend/src/context/AuthContext.tsx:84-123 | the session moves by one check step, and the promise yields the replied user or nothing |
| AuthContext.AuthProvider.Login | frontend/src/context/AuthContext.tsx:132-162 | success saves the user and settles; a refusal shows the handled message, clears the session only after a 401, and always rethrows |
| AuthContext.AuthProvider.SendPasswordReset | frontend/src/context/AuthContext.tsx:186-197 | true when sent, false only after a 401, a rejection for every other failure |
| AuthContext.AuthProvider.Logout | frontend/src/context/AuthContext.tsx:210-220 | whatever the request does, the session ends cleared and settled and the page goes to the sign-in route |
| AuthContext.LogoutSignsOut | frontend/src/context/AuthContext.tsx:210-220 | after a logout the session is settled, signed out, with a fresh retry counter |
| AlertsCard.CapitalizeAll | frontend/src/pages/WorkSpaceDetail/AlertsCard.tsx:49-51 | each piece is capitalised, one for one |
| AlertsCard.FormatIsTitled | frontend/src/pages/WorkSpaceDetail/AlertsCard.tsx:49-51 | split, capitalise and join is the same as turning each underscore into a space and upper-casing each word's first character |
| AlertsCard.FormatConditionMeaning | frontend/src/pages/WorkSpaceDetail/AlertsCard.tsx:49-51 | the displayed condition keeps the length, has no underscore, a space exactly where the condition had an underscore, and one word per piece |
| AlertsCard.GreaterThanShown | frontend/src/pages/WorkSpaceDetail/AlertsCard.tsx:49-51 | `greater_than` is shown as `Greater Than` |
| AlertsCard.LessThanShown | frontend/src/pages/WorkSpaceDetail/AlertsCard.tsx:49-51 | `less_than` is shown as `Less Than` |
| AlertsCard.WithoutRule | frontend/src/pages/WorkSpaceDetail/AlertsCard.tsx:37 | exactly the rules whose id differs |
| AlertsCard.DeleteKeepsOrder | frontend/src/pages/WorkSpaceDetail/AlertsCard.tsx:37 | deleting takes out every rule with the id and keeps the others in order |
| AlertsCard.RulesList.DeleteRule | frontend/src/pages/WorkSpaceDetail/AlertsCard.tsx:35-46 | the rule leaves the list, and the old list comes back when the request fails |
| CreateAlertModal.NumericColumns | frontend/src/pages/WorkSpaceDetail/CreateAlertModal.tsx:36-41 | a column is offered iff the schema gives it a type mentioning `int` or `float` |
| CreateAlertModal.NumericColumnsAppend | frontend/src/pages/WorkSpaceDetail/CreateAlertModal.tsx:36-41 | filtering two parts of a schema is filtering each, so the columns keep schema order |
| CreateAlertModal.FirstNumericHeads | frontend/src/pages/WorkSpaceDetail/CreateAlertModal.tsx:44-46 | the first numeric column of the schema is the one selected |
| CreateAlertModal.NoNumericNoColumns | frontend/src/pages/WorkSpaceDetail/CreateAlertModal.tsx:36-43 | a schema with no numeric type offers no column, so nothing can be created |
| CreateAlertModal.CollectNumeric | frontend/src/pages/WorkSpaceDetail/CreateAlertModal.tsx:36-41 | the reduce over the entries yields exactly the numeric columns in order |
| CreateAlertModal.AlertForm.LoadColumns | frontend/src/pages/WorkSpaceDetail/CreateAlertModal.tsx:26-55 | only a newest upload with a schema replaces the columns, selecting the first one if any; otherwise the columns and selection stay |
| CreateAlertModal.AlertForm.CreateRule | frontend/src/pages/WorkSpaceDetail/CreateAlertModal.tsx:57-78 | the payload holds the form's fields; the dialog closes and the rules refresh iff the request succeeds; saving ends either way |
| DataSourceModal.SaveOf | frontend/src/pages/WorkSpaceDetail/DataSourceModal.tsx:134-160 | an API source needs a non-blank URL and sends each header part only when not blank; a database source needs host, user, name and query; a refusal carries its message |
| DataSourceModal.Parsed | frontend/src/pages/WorkSpaceDetail/DataSourceModal.tsx:136-160 | the payload as the update model reads it is a committable update |
| DataSourceModal.SavedApiIsFetched | frontend/src/pages/WorkSpaceDetail/DataSourceModal.tsx:134-160 | a saved API configuration is stored as sent and handed to the API fetcher when due |
| DataSourceModal.SavedDbIsFetched | frontend/src/pages/WorkSpaceDetail/DataSourceModal.tsx:134-160 | a saved database configuration is stored as sent, a blank password keeps the stored one, and it is handed to the database fetcher when due |
| DataSourceModal.DbPayloadIsFetched | backend/app/api/workspaces.py:197-219 | a database payload with host and query is stored as sent, an absent password keeps the stored one, and the database fetcher is dispatched |
| DataSourceModal.CsvSwitchIsStatic | frontend/src/pages/WorkSpaceDetail/DataSourceModal.tsx:201-204 | after an upload the workspace is a CSV source with polling off and nothing to fetch |
| DataSourceModal.UnknownIntervals | frontend/src/pages/WorkSpaceDetail/DataSourceModal.tsx:56-60 | `30min`, `3hours` and `12hours` have no period: one scheduler never fetches such a workspace, the other only while it was never polled |
| DataSourceModal.OfferedWithPeriod | frontend/src/pages/WorkSpaceDetail/DataSourceModal.tsx:56-60 | among the offered frequencies exactly `hourly` and `daily` have a period |
| DataSourceModal.FetchHeaders | backend/app/services/celery_worker.py:205-207 | the fetcher sends one header iff both stored parts are non-empty, and then exactly that one |
| Workspaces.UpdateKeepsHeader | backend/app/api/workspaces.py:85-100 | no update changes the `api_header_name` and `api_header_value` columns, whatever the payload |
| DataSourceModal.UpdatedWithHeader | backend/app/api/workspaces.py:194-219 | with the header fields declared, an update stores the header parts sent, keeps the ones not sent, and changes every other column as `Updated` does |
| DataSourceModal.HeaderIsLost | frontend/src/pages/WorkSpaceDetail/DataSourceModal.tsx:145-146 | the dialog sends both header parts, yet after `Updated` a workspace without a header (every workspace) still has none, so the fetcher sends no header |
| DataSourceModal.HeaderIsUsed | frontend/src/pages/WorkSpaceDetail/DataSourceModal.tsx:145-146 | with the header fields assigned, the fetcher sends the header the form was saved with, whatever was stored before |
| DataSourceModal.OrText | frontend/src/pages/WorkSpaceDetail/DataSourceModal.tsx:117-119 | `s \|\| fallback`: the fallback iff the text is absent, empty or the fallback itself |
| DataSourceModal.AutoDisabledIff | frontend/src/pages/WorkSpaceDetail/DataSourceModal.tsx:114 | the banner shows iff polling is off and a non-empty failure reason is recorded |
| DataSourceModal.SourceDialog.Reset | frontend/src/pages/WorkSpaceDetail/DataSourceModal.tsx:115-132 | on opening, every field is reloaded from the workspace with its default, the secrets start empty and the file is cleared |
| DataSourceModal.SourceDialog.SaveConfiguration | frontend/src/pages/WorkSpaceDetail/DataSourceModal.tsx:134-175 | a refusal sends nothing and shows its message; otherwise the payload is sent, the dialog closes iff it succeeds and an upload is announced iff polling is on |
| DataSourceModal.SourceDialog.UploadCsv | frontend/src/pages/WorkSpaceDetail/DataSourceModal.tsx:177-219 | no file or one over 5 MB is refused before any request; the switch to CSV follows a successful upload; the dialog closes iff both succeed |
| SettingsCard.CodeInput | frontend/src/pages/WorkSpaceDetail/SettingsCard.tsx:352-355 | the field holds at most six digits, and six digits typed are kept as typed |
| SettingsCard.CodeInputLength | frontend/src/pages/WorkSpaceDetail/SettingsCard.tsx:355 | a code the input accepts has one UTF-16 unit per digit |
| SettingsCard.SixDigitsTypedAreKept | frontend/src/pages/WorkSpaceDetail/SettingsCard.tsx:352-355 | six digits typed are kept and pass the length check |
| SettingsCard.DeleteFailureMessage | frontend/src/pages/WorkSpaceDetail/SettingsCard.tsx:116 | the server's detail when it is non-empty, else the default message; never empty |
| SettingsCard.DeleteFlow.SetModalOpen | frontend/src/pages/WorkSpaceDetail/SettingsCard.tsx:213 | the dialog opens always and closes only when no request runs; nothing else changes |
| SettingsCard.DeleteFlow.TypeCode | frontend/src/pages/WorkSpaceDetail/SettingsCard.tsx:352-356 | the code becomes what the input accepts and the error mark clears |
| SettingsCard.DeleteFlow.RequestCode | frontend/src/pages/WorkSpaceDetail/SettingsCard.tsx:70-92 | a request is made iff the typed name matches; a mismatch marks the error; only a sent code moves on to the code step |
| SettingsCard.DeleteFlow.FinalDelete | frontend/src/pages/WorkSpaceDetail/SettingsCard.tsx:94-122 | a request is made iff the code has six digits; success reaches the last step, closes and goes home; failure shows the server's detail or the default |
| SettingsCard.DeleteWorkspace | frontend/src/pages/WorkSpaceDetail/SettingsCard.tsx:70-122 | with a wrong name no request is made; with the name and six digits both requests are made and the last step is reached |

## Left out

- Fetching data: `fetch_api_data` and `fetch_db_data` in both pipeline variants (HTTP requests, SQL queries, pandas parsing, `to_csv`) are not modelled. Their result enters as the parsed frame and statistics handed to the analyser; only the header rule of the API fetcher is modelled, as `DataSourceModal.FetchHeaders`.
- pandas itself: `describe()`, `isna()`, `duplicated()` and the quantiles arrive as given column data and statistics. Quantiles use linear interpolation on a sorted column of exact reals.
- Floating point: Python floats and JavaScript numbers are exact reals, so rounding errors of binary arithmetic are not modelled.
- CeleryWorker.Percent: the `:+.1f` text is not produced. The model keeps the exact percentage and its sign, so the rounding to one decimal is not modelled.
- Tasks.Percent: same as above, for the same reason.
- DataQuality.Round2: Python rounds the binary double, and the model rounds the exact real, halves to even. The two can differ at a decimal half that has no exact binary form.
- The `:.2f` formatting of values in alert messages and e-mails, and the IST time stamps (`convert_utc_to_ist_str`, pytz): messages carry the values, not their printed form.
- The AI insight (`get_ai_insight`, Gemini) is a parameter (`insightOf`).
- E-mail delivery (Brevo, the e-mail Celery tasks), Supabase storage, Telegram, JWT decoding and Fernet encryption: the model records the e-mails drafted, not their delivery.
- bcrypt: a password hash is an injective tag of the password, so salts and the 72-byte truncation inside bcrypt are not modelled. The 72-character limit of the validators is modelled.
- Randomness: the OTP draw of `random.randint` is a parameter restricted to its range.
- Clocks: `datetime.utcnow()`, `Date.now()` and the timers are parameters in whole seconds. Timers are taken as having fired, and the 2-second close of the delete dialog happens at once.
- Concurrency: Redis pub/sub, the WebSocket endpoints, `broadcast_to_workspace`, `push_to_user`, the APScheduler and scheduler loops, and `asyncio.run` are not modelled. The registry's `connect` and `disconnect` are modelled on their own signature.
- Database: each query is a filter over a table held as a sequence. Rows with equal sort keys keep table order, while the database's own tie order is unspecified.
- Records.UsersToNotify: the iteration order of a Python `set` is unspecified; the model takes first-occurrence order, so the order of notifications and recipients is not modelled.
- pydantic: the payload is taken as already parsed. Type coercion and the 422 for malformed bodies are not modelled, except for the validators the source declares and the dropping of undeclared fields, which the header finding rests on.
- Workspace endpoints not modelled: `list_workspaces`, `get_team_workspaces`, `get_workspace_uploads` and `get_workspace_alerts` are single queries. `upload_csv_for_workspace` (backend/app/api/workspaces.py:233-274) is storage of the file and an `Uploaded` row; it does not call `enforce_upload_limit_or_raise`, whose check is modelled on its own in `UploadLimits` and which no modelled path calls. `delete_workspace` is outside the core listed at the top of this README. The WebSocket endpoint is concurrency.
- Workspaces.ParseUuid: `int(_, 16)` also reads the decimal digits of other scripts (Arabic-Indic and the like) as digits; the model reads only ASCII hexadecimal digits, so such ids are refused with 400 where the source may look them up.
- Workspaces.PersistedTeam: the order in which `db.refresh` reads the team back is the database's; the model takes the order of first appending.
- `google_login`: it relies on Google's token verification, which is a foreign call, so it is not modelled. How the other endpoints treat a Google account is modelled (`Auth.GoogleAccountsKeepNoCode`).
- Guardian.Decide: header lookup is given as the looked-up values; the handling of the request after the middleware (`call_next`) is not modelled.
- Browser state: localStorage persistence of the step, e-mail and timers on the registration page (Register.tsx 29-78) and on the reset page (ForgotPassword.tsx 34-50) is not modelled. The `datapulse_user` entry is written and removed but never read back: `checkSession` starts from no user. The reset page's step is any text that may come back.
- Focus and the DOM: focus moves are computed as the index to focus, and the key-down handlers (Backspace moving focus) are left out. Animations, toasts' styling and rendering are left out.
- UTF-16: `.length` and `maxLength` count UTF-16 code units, modelled by `Common.Utf16Length`. Case mapping is ASCII only, and the source's inputs are ASCII.
- Regular expressions are written out as functions over characters, with the JavaScript and Python character classes for `\s` and `\d`. No regex engine is modelled.
- DataHistory: `toLocaleString` of dates, `averageValue` and the chart library are not modelled. `Object.keys` order is the order the statistics are given in, without JavaScript's rule that integer-like keys come first.
- The upload-count fetch of the settings card (SettingsCard.tsx 41-65) only displays numbers and is not modelled. The same goes for the loading flags of login and registration in the session context.
- AuthContext `register`, `verifyOtp` and `resetPassword`: they pass a request through with the loading flag, and `resetPassword`'s error path is `HandleError`.
- Accounts: linking, unlinking, global logout and the export download are outside the core listed at the top of this README. Only the device label, the last use and the deletion guard are modelled.
- DataSourceModal.SourceDialog.UploadCsv: the file's content, and the progress callbacks are not modelled. The size limit and the two requests are.
- An empty `schema_info` object (`{}`) is truthy in JavaScript and yields no columns; the model gives it the same empty list, which leaves the selection as it was.

## Findings

| source | as written | input that shows it | evidently intended | confidence | as-written member | corrected member |
|---|---|---|---|---|---|---|
| backend/app/api/user_action.py:64-73 | a path that collides is renamed with the upload's short id, but the new name is not checked against the paths already written | three uploads of one workspace: `x_<c>.csv`, then `x.csv`, then `x.csv` whose short id is `<c>`; the third is renamed to the first's path and the archive holds two entries with that name | every entry of the archive has its own path | high, not executed | UserAction.DuplicatePathAsWritten | UserAction.WrittenFreshDistinct |
| frontend/src/pages/Accounts.tsx:106-113 | `Linux` is tried before `Android`, and every Android agent contains `Linux; Android` | `Mozilla/5.0 (Linux; Android 14; Pixel 8) … Chrome/… Mobile Safari/…` is labelled `… on Linux` | Android devices are labelled Android | medium, not executed | Accounts.AndroidReportedAsLinux | Accounts.AndroidFirstIsIntended |
| frontend/src/components/NotificationsPage.tsx:132 | the page sends `DELETE /notifications/` to clear everything, but the notification router declares no such route | clearing a non-empty list: the request finds no route, the page shows the list again, and nothing is deleted | a route that deletes all of the caller's notifications | high, not executed | NotificationsPage.ClearAllIsNeverServed | Notifications.ClearAllIntended |
| frontend/src/pages/WorkSpaceDetail/DataSourceModal.tsx:145-146 | the dialog sends `api_header_name` and `api_header_value`, but the update model of backend/app/api/workspaces.py:85-101 does not declare them, so pydantic drops them | saving an API source with header `X-Api-Key: k`; the stored header stays empty and the fetcher sends no header | the key header is stored and sent with every poll | high, not executed | DataSourceModal.HeaderIsLost | DataSourceModal.HeaderIsUsed |
