/** The data export of a user (app/api/user_action.py): a zip archive with one folder per
 *  owned workspace holding the contents of its uploads, and a configuration manifest
 *  written last. The archive is modelled as the sequence of entries written to it. */
module UserAction {
  import opened Common
  import opened Records
  import Workspaces

  /** The columns of a workspace row that the export reads. */
  datatype WorkspaceRow = WorkspaceRow(
    id: WorkspaceId,
    name: string,
    ownerId: UserId,
    dataSource: Option<string>,
    apiUrl: Option<string>,
    dbType: Option<string>,
    dbHost: Option<string>,
    dbName: Option<string>,
    isPollingActive: bool)

  /** One element of `export_metadata["workspaces"]` (`created_at` is not modelled). */
  datatype ExportedWorkspace = ExportedWorkspace(
    id: WorkspaceId,
    name: string,
    dataSource: Option<string>,
    apiUrl: Option<string>,
    dbType: Option<string>,
    dbHost: Option<string>,
    dbName: Option<string>,
    isPollingActive: bool)

  /** The manifest (`exported_at` comes from the clock and is not modelled). */
  datatype Manifest = Manifest(exportedBy: string, userId: UserId, workspaces: seq<ExportedWorkspace>)

  datatype ZipEntry = FileEntry(path: string, content: string) | ConfigEntry(path: string, manifest: Manifest)

  const CONFIG_NAME := "DataPulse_Configuration.json"

  /** Upload ids are UUIDs, written in their canonical form. */
  predicate UuidIds(uploads: seq<Upload>)
  {
    forall i :: 0 <= i < |uploads| ==> uploads[i].id < Workspaces.UUID_LIMIT
  }

  // ---------------------------------------------------------------- one path

  /** Python `s.replace(a, b)` for single characters. */
  function ReplaceChar(s: string, a: char, b: char): (r: string)
    ensures |r| == |s|
    ensures a != b ==> a !in r
    ensures forall i :: 0 <= i < |s| ==> r[i] == if s[i] == a then b else s[i]
  {
    seq(|s|, i requires 0 <= i < |s| => if s[i] == a then b else s[i])
  }

  /** The position of the last `c` in `s`. */
  function LastIndexOf(s: string, c: char): (r: Option<nat>)
    ensures r.Some? ==> r.value < |s| && s[r.value] == c && c !in s[r.value + 1..]
    ensures r.None? ==> c !in s
  {
    if s == [] then None
    else if s[|s| - 1] == c then Some(|s| - 1)
    else
      var r := LastIndexOf(s[..|s| - 1], c);
      assert s == s[..|s| - 1] + [s[|s| - 1]];
      r
  }

  /** The file name with `_<short id>` before the last extension (`rsplit('.', 1)`), or at the
   *  end when there is no dot. */
  function Renamed(base: string, shortId: string): (r: string)
    ensures |r| == |base| + 1 + |shortId|
  {
    match LastIndexOf(base, '.')
    case Some(k) => base[..k] + "_" + shortId + base[k..]
    case None => base + "_" + shortId
  }

  /** An upload that the export writes: its folder, its file name, its short id and its content. */
  datatype Candidate = Candidate(folder: string, base: string, shortId: string, content: string)

  /** The path of a candidate given the paths written before it: `folder/base`, renamed once
   *  when that path was already written. */
  function TargetPath(added: set<string>, c: Candidate): (p: string)
    ensures p == c.folder + "/" + c.base || p == c.folder + "/" + Renamed(c.base, c.shortId)
    ensures c.folder + "/" + c.base !in added ==> p == c.folder + "/" + c.base
    ensures c.folder + "/" + c.base in added ==> p != c.folder + "/" + c.base
  {
    var p := c.folder + "/" + c.base;
    if p in added then c.folder + "/" + Renamed(c.base, c.shortId) else p
  }

  function PathsOf(entries: seq<ZipEntry>): (r: seq<string>)
    ensures |r| == |entries|
    ensures forall i :: 0 <= i < |entries| ==> r[i] == entries[i].path
  {
    seq(|entries|, i requires 0 <= i < |entries| => entries[i].path)
  }

  /** `added_paths`: the set of the paths written. */
  function PathSet(entries: seq<ZipEntry>): (r: set<string>)
  {
    if entries == [] then {} else PathSet(entries[..|entries| - 1]) + {entries[|entries| - 1].path}
  }

  lemma PathSetStep(entries: seq<ZipEntry>, e: ZipEntry)
    ensures PathSet(entries + [e]) == PathSet(entries) + {e.path}
  {
    assert (entries + [e])[..|entries|] == entries;
  }

  /** The entries written for the candidates in order, each at the path `TargetPath` gives
   *  against the paths written before it. */
  function Written(cs: seq<Candidate>): (r: seq<ZipEntry>)
    ensures |r| == |cs|
    ensures forall i :: 0 <= i < |cs| ==> r[i].FileEntry? && r[i].content == cs[i].content
  {
    if cs == [] then []
    else
      var init := Written(cs[..|cs| - 1]);
      var last := cs[|cs| - 1];
      init + [FileEntry(TargetPath(PathSet(init), last), last.content)]
  }

  // ---------------------------------------------------------------- what is exported

  /** `Workspace.owner_id == current_user.id`, in table order. */
  function Owned(workspaces: seq<WorkspaceRow>, owner: UserId): (r: seq<WorkspaceRow>)
    ensures forall w :: w in r <==> w in workspaces && w.ownerId == owner
  {
    if workspaces == [] then []
    else
      var init := workspaces[..|workspaces| - 1];
      var last := workspaces[|workspaces| - 1];
      assert workspaces == init + [last];
      Owned(init, owner) + (if last.ownerId == owner then [last] else [])
  }

  /** `DataUpload.workspace_id == ws.id`, in table order. */
  function UploadsOf(uploads: seq<Upload>, ws: WorkspaceId): (r: seq<Upload>)
    ensures forall u :: u in r <==> u in uploads && u.workspaceId == ws
  {
    if uploads == [] then []
    else
      var init := uploads[..|uploads| - 1];
      var last := uploads[|uploads| - 1];
      assert uploads == init + [last];
      UploadsOf(init, ws) + (if last.workspaceId == ws then [last] else [])
  }

  lemma UploadsOfUuid(uploads: seq<Upload>, ws: WorkspaceId)
    requires UuidIds(uploads)
    ensures UuidIds(UploadsOf(uploads, ws))
  {
    var r := UploadsOf(uploads, ws);
    forall i | 0 <= i < |r|
      ensures r[i].id < Workspaces.UUID_LIMIT
    {
      assert r[i] in uploads;
    }
  }

  /** Python truthiness of `upload.file_content`. */
  predicate HasContent(u: Upload)
  {
    u.fileContent.Some? && u.fileContent.value != ""
  }

  function CandidateOf(ws: WorkspaceRow, u: Upload): (c: Candidate)
    requires u.id < Workspaces.UUID_LIMIT && HasContent(u)
    ensures |c.shortId| == 6
  {
    var idText := Workspaces.FormatUuid(u.id);
    var base := if u.filePath.Some? && u.filePath.value != "" then u.filePath.value
                else "upload_" + idText[..8] + ".csv";
    Candidate(ReplaceChar(ws.name, ' ', '_'), base, idText[..6], u.fileContent.value)
  }

  /** The uploads of one workspace that are written: those with content, in order. */
  function Kept(ws: WorkspaceRow, uploads: seq<Upload>): seq<Candidate>
    requires UuidIds(uploads)
  {
    if uploads == [] then []
    else
      var last := uploads[|uploads| - 1];
      Kept(ws, uploads[..|uploads| - 1]) + (if HasContent(last) then [CandidateOf(ws, last)] else [])
  }

  /** Every upload written, workspace by workspace. */
  function Candidates(workspaces: seq<WorkspaceRow>, uploads: seq<Upload>): seq<Candidate>
    requires UuidIds(uploads)
  {
    if workspaces == [] then []
    else
      var last := workspaces[|workspaces| - 1];
      UploadsOfUuid(uploads, last.id);
      Candidates(workspaces[..|workspaces| - 1], uploads) + Kept(last, UploadsOf(uploads, last.id))
  }

  function Exported(w: WorkspaceRow): ExportedWorkspace
  {
    ExportedWorkspace(w.id, w.name, w.dataSource, w.apiUrl, w.dbType, w.dbHost, w.dbName, w.isPollingActive)
  }

  /** The manifest lists each exported workspace once, in order. */
  function ManifestOf(email: string, owner: UserId, workspaces: seq<WorkspaceRow>): (m: Manifest)
    ensures |m.workspaces| == |workspaces|
    ensures forall i :: 0 <= i < |workspaces| ==> m.workspaces[i].id == workspaces[i].id
  {
    Manifest(email, owner, seq(|workspaces|, i requires 0 <= i < |workspaces| => Exported(workspaces[i])))
  }

  // ---------------------------------------------------------------- the export

  lemma WrittenStep(cs: seq<Candidate>, c: Candidate)
    ensures Written(cs + [c]) == Written(cs) + [FileEntry(TargetPath(PathSet(Written(cs)), c), c.content)]
  {
    assert (cs + [c])[..|cs|] == cs;
  }

  /** One more upload of a workspace: the candidates grow by it when it has content. */
  lemma KeptStep(ws: WorkspaceRow, us: seq<Upload>, j: nat)
    requires UuidIds(us) && j < |us|
    ensures Kept(ws, us[..j + 1]) == Kept(ws, us[..j]) + (if HasContent(us[j]) then [CandidateOf(ws, us[j])] else [])
  {
    assert us[..j + 1][..j] == us[..j];
  }

  /** One more written candidate after those of `done`. */
  lemma WrittenAfter(done: seq<Candidate>, kept: seq<Candidate>, c: Candidate)
    ensures Written(done + (kept + [c]))
         == Written(done + kept) + [FileEntry(TargetPath(PathSet(Written(done + kept)), c), c.content)]
  {
    assert done + (kept + [c]) == (done + kept) + [c];
    WrittenStep(done + kept, c);
  }

  lemma CandidatesStep(owned: seq<WorkspaceRow>, uploads: seq<Upload>, i: nat)
    requires UuidIds(uploads) && i < |owned|
    requires UuidIds(UploadsOf(uploads, owned[i].id))
    ensures Candidates(owned[..i + 1], uploads) == Candidates(owned[..i], uploads) + Kept(owned[i], UploadsOf(uploads, owned[i].id))
  {
    assert owned[..i + 1][..i] == owned[..i];
  }

  lemma ManifestStep(email: string, owner: UserId, owned: seq<WorkspaceRow>, i: nat)
    requires i < |owned|
    ensures ManifestOf(email, owner, owned[..i + 1]).workspaces
         == ManifestOf(email, owner, owned[..i]).workspaces + [Exported(owned[i])]
  {
  }

  /** One more upload of the workspace: one more entry when it has content, none otherwise. */
  lemma ExportStep(ws: WorkspaceRow, us: seq<Upload>, done: seq<Candidate>, j: nat,
                   before: seq<ZipEntry>, after: seq<ZipEntry>)
    requires UuidIds(us) && j < |us|
    requires before == Written(done + Kept(ws, us[..j]))
    requires after == if HasContent(us[j])
         then before + [FileEntry(TargetPath(PathSet(before), CandidateOf(ws, us[j])), CandidateOf(ws, us[j]).content)]
         else before
    ensures after == Written(done + Kept(ws, us[..j + 1]))
  {
    KeptStep(ws, us, j);
    var kept := Kept(ws, us[..j]);
    if HasContent(us[j]) {
      var c := CandidateOf(ws, us[j]);
      assert Kept(ws, us[..j + 1]) == kept + [c];
      WrittenAfter(done, kept, c);
    } else {
      assert Kept(ws, us[..j + 1]) == kept;
    }
  }

  /** One upload with content written: at `folder/base`, or at the renamed path when that
   *  one is already in the archive. */
  method WriteCandidate(c: Candidate, entries: seq<ZipEntry>, added: set<string>)
    returns (entries': seq<ZipEntry>, added': set<string>)
    requires added == PathSet(entries)
    ensures entries' == entries + [FileEntry(TargetPath(added, c), c.content)]
    ensures added' == PathSet(entries')
  {
    var targetPath := c.folder + "/" + c.base;
    if targetPath in added {
      targetPath := c.folder + "/" + Renamed(c.base, c.shortId);
    }
    var entry := FileEntry(targetPath, c.content);
    PathSetStep(entries, entry);
    entries' := entries + [entry];
    added' := added + {targetPath};
  }

  /** The inner loop of `export_user_data`: the uploads of one workspace written after the
   *  entries `entries` (those of `done`), with `added` the set of their paths. */
  method ExportWorkspace(ws: WorkspaceRow, wsUploads: seq<Upload>, done: seq<Candidate>,
                         entries: seq<ZipEntry>, added: set<string>)
    returns (entries': seq<ZipEntry>, added': set<string>)
    requires UuidIds(wsUploads)
    requires entries == Written(done)
    requires added == PathSet(entries)
    ensures entries' == Written(done + Kept(ws, wsUploads))
    ensures added' == PathSet(entries')
  {
    entries' := entries;
    added' := added;
    var j := 0;
    assert done + Kept(ws, wsUploads[..0]) == done;
    while j < |wsUploads|
      invariant 0 <= j <= |wsUploads|
      invariant entries' == Written(done + Kept(ws, wsUploads[..j]))
      invariant added' == PathSet(entries')
    {
      var upload := wsUploads[j];
      ghost var before := entries';
      if HasContent(upload) {
        entries', added' := WriteCandidate(CandidateOf(ws, upload), entries', added');
      }
      ExportStep(ws, wsUploads, done, j, before, entries');
      j := j + 1;
    }
    assert wsUploads[..j] == wsUploads;
  }

  /** `export_user_data`: the owned workspaces in order; for each, its uploads with content at
   *  their target paths; then the manifest. */
  method ExportUserData(email: string, owner: UserId, workspaces: seq<WorkspaceRow>, uploads: seq<Upload>)
    returns (entries: seq<ZipEntry>)
    requires UuidIds(uploads)
    ensures var owned := Owned(workspaces, owner);
      entries == Written(Candidates(owned, uploads)) + [ConfigEntry(CONFIG_NAME, ManifestOf(email, owner, owned))]
  {
    var owned := Owned(workspaces, owner);
    var exported: seq<ExportedWorkspace> := [];
    var added: set<string> := {};
    entries := [];
    var i := 0;
    while i < |owned|
      invariant 0 <= i <= |owned|
      invariant entries == Written(Candidates(owned[..i], uploads))
      invariant added == PathSet(entries)
      invariant exported == ManifestOf(email, owner, owned[..i]).workspaces
    {
      var ws := owned[i];
      exported := exported + [Exported(ws)];
      var wsUploads := UploadsOf(uploads, ws.id);
      UploadsOfUuid(uploads, ws.id);
      entries, added := ExportWorkspace(ws, wsUploads, Candidates(owned[..i], uploads), entries, added);
      CandidatesStep(owned, uploads, i);
      ManifestStep(email, owner, owned, i);
      i := i + 1;
    }
    assert owned[..i] == owned;
    entries := entries + [ConfigEntry(CONFIG_NAME, Manifest(email, owner, exported))];
  }

  // ---------------------------------------------------------------- properties

  /** The manifest cannot collide with an upload: every upload path has a folder. */
  lemma ConfigPathIsUnique(cs: seq<Candidate>)
    ensures CONFIG_NAME !in PathsOf(Written(cs))
  {
    forall i | 0 <= i < |cs|
      ensures Written(cs)[i].path != CONFIG_NAME
    {
      var c := cs[i];
      WrittenPath(cs, i);
      if Written(cs)[i].path == c.folder + "/" + c.base {
        SlashInPath(c.folder, c.base);
      } else {
        SlashInPath(c.folder, Renamed(c.base, c.shortId));
      }
    }
  }

  /** A path with a folder is never the manifest's name, which has no `/`. */
  lemma SlashInPath(folder: string, name: string)
    ensures folder + "/" + name != CONFIG_NAME
  {
    assert (folder + "/" + name)[|folder|] == '/';
    assert '/' !in CONFIG_NAME;
  }

  lemma {:induction false} WrittenPath(cs: seq<Candidate>, i: nat)
    requires i < |cs|
    ensures var p := Written(cs)[i].path;
      p == cs[i].folder + "/" + cs[i].base || p == cs[i].folder + "/" + Renamed(cs[i].base, cs[i].shortId)
  {
    if i < |cs| - 1 {
      WrittenPath(cs[..|cs| - 1], i);
    }
  }

  lemma RenamedCsv(shortId: string)
    ensures Renamed("x.csv", shortId) == "x_" + shortId + ".csv"
  {
    assert LastIndexOf("x.csv", '.') == Some(1);
  }

  lemma WrittenSingle(c: Candidate)
    ensures Written([c]) == [FileEntry(c.folder + "/" + c.base, c.content)]
  {
    WrittenStep([], c);
    assert [] + [c] == [c];
  }

  /** The first two of the three uploads below are written at their own paths. */
  lemma WrittenPair(folder: string, shortA: string, shortB: string, shortC: string, a: string, b: string)
    requires |shortC| == 6
    ensures Written([Candidate(folder, "x_" + shortC + ".csv", shortA, a), Candidate(folder, "x.csv", shortB, b)])
         == [FileEntry(folder + "/" + ("x_" + shortC + ".csv"), a), FileEntry(folder + "/" + "x.csv", b)]
  {
    var c0 := Candidate(folder, "x_" + shortC + ".csv", shortA, a);
    var c1 := Candidate(folder, "x.csv", shortB, b);
    var p0 := folder + "/" + ("x_" + shortC + ".csv");
    var p1 := folder + "/" + "x.csv";
    WrittenSingle(c0);
    WrittenStep([c0], c1);
    assert |p0| != |p1|;
    assert [c0] + [c1] == [c0, c1];
  }

  /** The renamed path is not checked again: three uploads in one folder, the first named
   *  like the renaming of the third, give two entries with the same path. */
  lemma DuplicatePathAsWritten(folder: string, shortA: string, shortB: string, shortC: string, a: string, b: string, c: string)
    requires |shortC| == 6
    ensures var cs := [Candidate(folder, "x_" + shortC + ".csv", shortA, a),
                       Candidate(folder, "x.csv", shortB, b),
                       Candidate(folder, "x.csv", shortC, c)];
      Written(cs)[0].path == Written(cs)[2].path
  {
    var c0 := Candidate(folder, "x_" + shortC + ".csv", shortA, a);
    var c1 := Candidate(folder, "x.csv", shortB, b);
    var c2 := Candidate(folder, "x.csv", shortC, c);
    WrittenPair(folder, shortA, shortB, shortC, a, b);
    WrittenStep([c0, c1], c2);
    assert [c0, c1] + [c2] == [c0, c1, c2];
    RenamedCsv(shortC);
  }

  /** The longest of the paths. */
  function MaxLength(paths: seq<string>): (n: nat)
    ensures forall i :: 0 <= i < |paths| ==> |paths[i]| <= n
  {
    if paths == [] then 0
    else
      var n := MaxLength(paths[1..]);
      assert forall i :: 1 <= i < |paths| ==> paths[i] == paths[1..][i - 1];
      if |paths[0]| > n then |paths[0]| else n
  }

  /** The path of a candidate renamed until no written path has it. */
  function FreshPath(added: seq<string>, folder: string, base: string, shortId: string): (p: string)
    ensures p !in added
    decreases MaxLength(added) + 1 - |folder + "/" + base|
  {
    var p := folder + "/" + base;
    if p !in added then p
    else
      var i :| 0 <= i < |added| && added[i] == p;
      FreshPath(added, folder, Renamed(base, shortId), shortId)
  }

  /** The export with every renamed path checked again. */
  function WrittenFresh(cs: seq<Candidate>): (r: seq<ZipEntry>)
    ensures |r| == |cs|
    ensures forall i :: 0 <= i < |cs| ==> r[i].FileEntry? && r[i].content == cs[i].content
  {
    if cs == [] then []
    else
      var init := WrittenFresh(cs[..|cs| - 1]);
      var last := cs[|cs| - 1];
      init + [FileEntry(FreshPath(PathsOf(init), last.folder, last.base, last.shortId), last.content)]
  }

  /** With the renamed path checked again, no two entries share a path, and a path that
   *  was free is used as it is. */
  lemma {:induction false} WrittenFreshDistinct(cs: seq<Candidate>)
    ensures NoDuplicates(PathsOf(WrittenFresh(cs)))
  {
    if cs != [] {
      var init := WrittenFresh(cs[..|cs| - 1]);
      WrittenFreshDistinct(cs[..|cs| - 1]);
      var r := WrittenFresh(cs);
      var n := |cs| - 1;
      assert forall i :: 0 <= i < n ==> PathsOf(r)[i] == PathsOf(init)[i];
      assert PathsOf(r)[n] !in PathsOf(init);
    }
  }
}
