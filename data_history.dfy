/** The data history card of a workspace (frontend/src/pages/WorkSpaceDetail/DataHistoryCard.tsx):
 *  the manual and scheduled upload lists, which upload is selected, deleting an upload, the
 *  mean chart of the selected upload and the trend of the tracked column. */
module DataHistory {
  import opened Common
  import opened Sorting

  // ---------------------------------------------------------------- uploads

  /** An upload as the card receives it; `uploadedAt` is the time stamp in milliseconds. */
  datatype Upload = Upload(id: string, filePath: string, uploadType: string, uploadedAt: int)

  function UploadedAt(u: Upload): real
  {
    u.uploadedAt as real
  }

  /** The scheduled list: polled and queried uploads together, newest first; uploads with the
   *  same time keep their order, polled ones before queried ones. */
  function Scheduled(apiPolls: seq<Upload>, dbQueries: seq<Upload>): (r: seq<Upload>)
    ensures multiset(r) == multiset(apiPolls + dbQueries)
    ensures SortedDesc(r, UploadedAt)
  {
    SortDesc(apiPolls + dbQueries, UploadedAt)
  }

  /** Uploads made at the same moment keep the order they came in. */
  lemma ScheduledKeepsTies(apiPolls: seq<Upload>, dbQueries: seq<Upload>, at: real)
    ensures WithKey(Scheduled(apiPolls, dbQueries), UploadedAt, at) == WithKey(apiPolls + dbQueries, UploadedAt, at)
  {
    SortDescStable(apiPolls + dbQueries, UploadedAt, at);
  }

  /** The newest scheduled upload heads the list. */
  lemma ScheduledNewestFirst(apiPolls: seq<Upload>, dbQueries: seq<Upload>)
    requires apiPolls + dbQueries != []
    ensures Scheduled(apiPolls, dbQueries)[0] in apiPolls + dbQueries
    ensures forall u :: u in apiPolls + dbQueries ==> u.uploadedAt <= Scheduled(apiPolls, dbQueries)[0].uploadedAt
  {
    SortDescHead(apiPolls + dbQueries, UploadedAt);
  }

  /** `manual[0] || scheduled[0] || null`. */
  function FirstOf(manual: seq<Upload>, scheduled: seq<Upload>): (r: Option<Upload>)
    ensures r.None? <==> manual == [] && scheduled == []
    ensures manual != [] ==> r == Some(manual[0])
    ensures manual == [] && scheduled != [] ==> r == Some(scheduled[0])
  {
    if manual != [] then Some(manual[0])
    else if scheduled != [] then Some(scheduled[0])
    else None
  }

  /** `uploads.filter(u => u.id !== id)`. */
  function WithoutUpload(uploads: seq<Upload>, id: string): (r: seq<Upload>)
    ensures forall u :: u in r <==> u in uploads && u.id != id
  {
    RejectMember(uploads, (u: Upload) => u.id == id);
    Reject(uploads, (u: Upload) => u.id == id)
  }

  /** Deleting an upload takes out every upload with its id and keeps the rest in order. */
  lemma DeleteKeepsOrder(before: seq<Upload>, u: Upload, after: seq<Upload>)
    ensures WithoutUpload(before + [u] + after, u.id) == WithoutUpload(before, u.id) + WithoutUpload(after, u.id)
  {
    var drop := (x: Upload) => x.id == u.id;
    RejectAppend(before + [u], after, drop);
    RejectAppend(before, [u], drop);
  }

  /** `file_path.split(/[/\\]/).pop()`: the text after the last `/` or `\`. */
  function Label(path: string): (r: string)
    ensures |r| <= |path| && path[|path| - |r|..] == r
    ensures '/' !in r && '\\' !in r
    ensures |r| < |path| ==> path[|path| - |r| - 1] in {'/', '\\'}
  {
    if path == [] then []
    else
      var last := path[|path| - 1];
      if last == '/' || last == '\\' then []
      else
        var r := Label(path[..|path| - 1]);
        assert path[..|path| - 1][|path| - 1 - |r|..] == r;
        r + [last]
  }

  /** A file name under any directory is shown as just the name. */
  lemma {:induction false} LabelOfPath(dir: string, sep: char, name: string)
    requires sep == '/' || sep == '\\'
    requires '/' !in name && '\\' !in name
    ensures Label(dir + [sep] + name) == name
    decreases |name|
  {
    var path := dir + [sep] + name;
    if name != [] {
      var init := name[..|name| - 1];
      LabelOfPath(dir, sep, init);
      assert path[..|path| - 1] == dir + [sep] + init;
      assert name == init + [name[|name| - 1]];
    }
  }

  /** The Track button appears for types that mention `int` or `float`. */
  predicate Trackable(columnType: string)
  {
    Contains(columnType, "int") || Contains(columnType, "float")
  }

  lemma TrackableIff(columnType: string)
    ensures Trackable(columnType) <==>
      (exists i :: OccursAt(columnType, "int", i)) || (exists i :: OccursAt(columnType, "float", i))
  {
    ContainsIff(columnType, "int");
    ContainsIff(columnType, "float");
  }

  // ---------------------------------------------------------------- the mean chart

  /** A column's `mean` as the card reads it: a missing statistics entry or a missing mean
   *  is `undefined`; a `null` mean is kept. */
  datatype Mean = Undefined | Null | Number(value: real)

  /** The summary statistics: per column in key order, the column's entry, if it has one. */
  type SummaryStats = seq<(string, Option<Mean>)>

  function MeanOf(entry: Option<Mean>): Mean
  {
    entry.GetOr(Undefined)
  }

  /** `formatChartData`: one bar per column whose mean is defined, in key order; nothing
   *  without statistics. */
  function ChartData(stats: Option<SummaryStats>): (r: seq<(string, Mean)>)
    ensures stats.None? ==> r == []
    ensures forall bar :: bar in r ==> bar.1 != Undefined
    ensures stats.Some? ==> |r| <= |stats.value|
  {
    match stats
    case None => []
    case Some(columns) => Bars(columns)
  }

  function Bars(columns: SummaryStats): (r: seq<(string, Mean)>)
    ensures forall bar :: bar in r ==> bar.1 != Undefined
    ensures |r| <= |columns|
  {
    if columns == [] then []
    else
      var mean := MeanOf(columns[0].1);
      (if mean != Undefined then [(columns[0].0, mean)] else []) + Bars(columns[1..])
  }

  /** The bars are exactly the columns with a defined mean. */
  lemma {:induction false} BarsExact(columns: SummaryStats, name: string, mean: Mean)
    ensures (name, mean) in Bars(columns) <==>
      mean != Undefined && exists i :: 0 <= i < |columns| && columns[i].0 == name && MeanOf(columns[i].1) == mean
  {
    if columns != [] {
      BarsExact(columns[1..], name, mean);
      if (exists i :: 0 <= i < |columns| && columns[i].0 == name && MeanOf(columns[i].1) == mean) {
        var i :| 0 <= i < |columns| && columns[i].0 == name && MeanOf(columns[i].1) == mean;
        if i > 0 {
          assert columns[1..][i - 1] == columns[i];
        }
      }
      if (exists i :: 0 <= i < |columns[1..]| && columns[1..][i].0 == name && MeanOf(columns[1..][i].1) == mean) {
        var i :| 0 <= i < |columns[1..]| && columns[1..][i].0 == name && MeanOf(columns[1..][i].1) == mean;
        assert columns[i + 1] == columns[1..][i];
      }
    }
  }

  // ---------------------------------------------------------------- the trend

  /** The first value that is not `null`. */
  function FirstValue(values: seq<Option<real>>): Option<real>
  {
    if values == [] then None
    else if values[0].Some? then values[0]
    else FirstValue(values[1..])
  }

  /** It is none iff every value is `null`, and otherwise the value at a position with only
   *  `null` before it. */
  lemma {:induction false} FirstValueIsFirst(values: seq<Option<real>>)
    ensures FirstValue(values).None? <==> forall i :: 0 <= i < |values| ==> values[i].None?
    ensures FirstValue(values).Some? ==> exists i :: 0 <= i < |values| && values[i] == FirstValue(values)
                                           && forall k :: 0 <= k < i ==> values[k].None?
  {
    if values != [] && values[0].None? {
      var tail := values[1..];
      FirstValueIsFirst(tail);
      assert forall i :: 1 <= i < |values| ==> values[i] == tail[i - 1];
      if FirstValue(tail).Some? {
        var i :| 0 <= i < |tail| && tail[i] == FirstValue(tail) && forall k :: 0 <= k < i ==> tail[k].None?;
        assert values[i + 1] == FirstValue(values);
      }
    }
  }

  /** The last value that is not `null`. */
  function LastValue(values: seq<Option<real>>): Option<real>
  {
    if values == [] then None
    else if values[|values| - 1].Some? then values[|values| - 1]
    else LastValue(values[..|values| - 1])
  }

  /** It is none iff every value is `null`, and otherwise the value at a position with only
   *  `null` after it. */
  lemma {:induction false} LastValueIsLast(values: seq<Option<real>>)
    ensures LastValue(values).None? <==> forall i :: 0 <= i < |values| ==> values[i].None?
    ensures LastValue(values).Some? ==> exists i :: 0 <= i < |values| && values[i] == LastValue(values)
                                          && forall k :: i < k < |values| ==> values[k].None?
  {
    if values != [] && values[|values| - 1].None? {
      var init := values[..|values| - 1];
      LastValueIsLast(init);
      assert forall i :: 0 <= i < |init| ==> values[i] == init[i];
      if LastValue(init).Some? {
        var i :| 0 <= i < |init| && init[i] == LastValue(init) && forall k :: i < k < |init| ==> init[k].None?;
        assert values[i] == LastValue(values);
      }
    }
  }

  /** `overallChange`: the percentage from the first to the last value, or 0 when either is
   *  missing or the first is zero; `None` is the "not enough data" notice for fewer than
   *  two points. */
  function OverallChange(values: seq<Option<real>>): (r: Option<real>)
    ensures r.None? <==> |values| < 2
    ensures r.Some? && r.value != 0.0 ==> FirstValue(values).Some? && FirstValue(values).value != 0.0
  {
    if |values| < 2 then None
    else
      var first := FirstValue(values);
      var last := LastValue(values);
      if first.Some? && last.Some? && first.value != 0.0 then
        Some((last.value - first.value) / first.value * 100.0)
      else Some(0.0)
  }

  /** The change badge is green (the change is not negative) exactly when the last value
   *  moved away from zero in the first value's direction or stayed: for a positive first
   *  value, when the last is at least as large. */
  lemma ChangeSign(values: seq<Option<real>>)
    requires |values| >= 2
    requires FirstValue(values).Some? && FirstValue(values).value > 0.0
    ensures LastValue(values).Some?
    ensures OverallChange(values).value >= 0.0 <==> LastValue(values).value >= FirstValue(values).value
  {
    FirstValueIsFirst(values);
    LastValueIsLast(values);
    PercentSign(FirstValue(values).value, LastValue(values).value);
  }

  /** The percentage change from a positive value is not negative iff the new value is at
   *  least as large. */
  lemma PercentSign(first: real, last: real)
    requires first > 0.0
    ensures (last - first) / first * 100.0 >= 0.0 <==> last >= first
  {
    var q := (last - first) / first;
    assert q * first == last - first;
    if last >= first {
      assert q >= 0.0;
    } else {
      assert q < 0.0;
    }
  }

  /** With a single non-null value among the points, the change is zero. */
  lemma {:induction false} SingleValueNoChange(values: seq<Option<real>>, i: nat)
    requires |values| >= 2 && i < |values| && values[i].Some?
    requires forall k :: 0 <= k < |values| && k != i ==> values[k].None?
    ensures OverallChange(values) == Some(0.0)
  {
    var first := FirstValue(values);
    var last := LastValue(values);
    FirstValueIsFirst(values);
    LastValueIsLast(values);
    var a :| 0 <= a < |values| && values[a] == first && forall k :: 0 <= k < a ==> values[k].None?;
    var b :| 0 <= b < |values| && values[b] == last && forall k :: b < k < |values| ==> values[k].None?;
    assert a == i && b == i;
  }

  // ---------------------------------------------------------------- the card

  datatype ViewMode = Snapshot | Trend

  class DataHistoryCard {
    var manualUploads: seq<Upload>
    var scheduledFetches: seq<Upload>
    var selected: Option<Upload>
    var uploadToDelete: Option<Upload>
    var viewMode: ViewMode
    var trackedColumn: Option<string>

    /** The selection, when there is one, is an upload of one of the lists. */
    predicate Valid()
      reads this
    {
      selected.Some? ==> selected.value in manualUploads || selected.value in scheduledFetches
    }

    constructor (trackedColumn: Option<string>)
      ensures Valid()
      ensures manualUploads == [] && scheduledFetches == [] && selected.None? && uploadToDelete.None?
      ensures viewMode == Snapshot && this.trackedColumn == trackedColumn
    {
      manualUploads := [];
      scheduledFetches := [];
      selected := None;
      uploadToDelete := None;
      viewMode := Snapshot;
      this.trackedColumn := trackedColumn;
    }

    /** `fetchAllUploads` after the three requests returned. */
    method Load(manual: seq<Upload>, apiPolls: seq<Upload>, dbQueries: seq<Upload>)
      modifies this
      ensures Valid()
      ensures manualUploads == manual && scheduledFetches == Scheduled(apiPolls, dbQueries)
      ensures selected == FirstOf(manual, Scheduled(apiPolls, dbQueries))
      ensures uploadToDelete == old(uploadToDelete) && viewMode == old(viewMode) && trackedColumn == old(trackedColumn)
    {
      var combined := Scheduled(apiPolls, dbQueries);
      manualUploads := manual;
      scheduledFetches := combined;
      selected := FirstOf(manual, combined);
    }

    /** Choosing a tab (0 for manual uploads) selects the first upload of that list. */
    method ChooseTab(index: nat)
      modifies this
      ensures Valid()
      ensures var list := if index == 0 then manualUploads else scheduledFetches;
        selected == (if list != [] then Some(list[0]) else None)
      ensures viewMode == Snapshot
      ensures manualUploads == old(manualUploads) && scheduledFetches == old(scheduledFetches)
      ensures uploadToDelete == old(uploadToDelete) && trackedColumn == old(trackedColumn)
    {
      var list := if index == 0 then manualUploads else scheduledFetches;
      selected := if list != [] then Some(list[0]) else None;
      viewMode := Snapshot;
    }

    /** Asking to delete an upload opens the confirmation for it. */
    method AskDelete(u: Upload)
      modifies this
      ensures uploadToDelete == Some(u)
      ensures manualUploads == old(manualUploads) && scheduledFetches == old(scheduledFetches)
      ensures selected == old(selected) && viewMode == old(viewMode) && trackedColumn == old(trackedColumn)
    {
      uploadToDelete := Some(u);
    }

    /** `handleDeleteUpload`: the upload leaves both lists at once; the selection moves to the
     *  first remaining upload only when the deleted one was selected. A failed request
     *  makes the card load the lists again, which is `Load`. */
    method DeleteUpload()
      requires Valid()
      modifies this
      ensures Valid()
      ensures old(uploadToDelete).None? ==>
        manualUploads == old(manualUploads) && scheduledFetches == old(scheduledFetches) && selected == old(selected)
      ensures old(uploadToDelete).Some? ==>
        var id := old(uploadToDelete).value.id;
        && manualUploads == WithoutUpload(old(manualUploads), id)
        && scheduledFetches == WithoutUpload(old(scheduledFetches), id)
        && selected == (if old(selected).Some? && old(selected).value.id == id
                        then FirstOf(manualUploads, scheduledFetches) else old(selected))
      ensures uploadToDelete.None? && viewMode == old(viewMode) && trackedColumn == old(trackedColumn)
    {
      if uploadToDelete.None? {
        return;
      }
      var id := uploadToDelete.value.id;
      var newManuals := WithoutUpload(manualUploads, id);
      var newScheduled := WithoutUpload(scheduledFetches, id);
      manualUploads := newManuals;
      scheduledFetches := newScheduled;
      if selected.Some? && selected.value.id == id {
        selected := FirstOf(newManuals, newScheduled);
      }
      uploadToDelete := None;
    }

    /** `handleTrackColumn`: the column is tracked at once; the trend view opens when the
     *  workspace update succeeds. */
    method TrackColumn(column: string, saved: bool)
      modifies this
      ensures trackedColumn == Some(column)
      ensures viewMode == (if saved then Trend else old(viewMode))
      ensures manualUploads == old(manualUploads) && scheduledFetches == old(scheduledFetches)
      ensures selected == old(selected) && uploadToDelete == old(uploadToDelete)
    {
      trackedColumn := Some(column);
      if saved {
        viewMode := Trend;
      }
    }
  }

  /** After a delete no upload with that id is listed or selected. */
  lemma DeletedIsGone(manual: seq<Upload>, scheduled: seq<Upload>, selected: Option<Upload>, id: string)
    requires selected.Some? ==> selected.value in manual || selected.value in scheduled
    ensures var m, s := WithoutUpload(manual, id), WithoutUpload(scheduled, id);
      var sel := if selected.Some? && selected.value.id == id then FirstOf(m, s) else selected;
      && (forall u :: u in m + s ==> u.id != id)
      && (sel.Some? ==> sel.value.id != id && (sel.value in m || sel.value in s))
  {
  }
}
