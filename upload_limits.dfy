/** The per-workspace upload limit (app/services/upload_limits.py), modelled on its own:
 *  the check refuses a new upload once the workspace has reached the limit. No endpoint or
 *  worker of the backend calls it; the manual upload endpoint stores the file unchecked. */
module UploadLimits {
  import opened Common
  import opened Records

  const DEFAULT_MAX_UPLOADS_PER_WORKSPACE := 50

  /** `get_upload_count`: the uploads of the workspace. */
  function UploadCount(uploads: seq<Upload>, ws: WorkspaceId): nat
  {
    if uploads == [] then 0
    else UploadCount(uploads[..|uploads| - 1], ws) + (if uploads[|uploads| - 1].workspaceId == ws then 1 else 0)
  }

  /** The positions of the uploads of the workspace. */
  function Positions(uploads: seq<Upload>, ws: WorkspaceId): set<nat>
  {
    set i | 0 <= i < |uploads| && uploads[i].workspaceId == ws
  }

  /** The count is exactly the number of uploads whose workspace id matches. */
  lemma {:induction false} UploadCountCounts(uploads: seq<Upload>, ws: WorkspaceId)
    ensures UploadCount(uploads, ws) == |Positions(uploads, ws)|
  {
    if uploads != [] {
      var n := |uploads| - 1;
      var init := uploads[..n];
      UploadCountCounts(init, ws);
      assert forall i :: 0 <= i < n ==> init[i] == uploads[i];
      if uploads[n].workspaceId == ws {
        assert Positions(uploads, ws) == Positions(init, ws) + {n};
      } else {
        assert Positions(uploads, ws) == Positions(init, ws);
      }
    }
  }

  /** Uploads of other workspaces do not count, and each upload of the workspace counts once. */
  lemma {:induction false} UploadCountAppend(uploads: seq<Upload>, more: seq<Upload>, ws: WorkspaceId)
    ensures UploadCount(uploads + more, ws) == UploadCount(uploads, ws) + UploadCount(more, ws)
    decreases |more|
  {
    if more == [] {
      assert uploads + more == uploads;
    } else {
      var n := |more| - 1;
      UploadCountAppend(uploads, more[..n], ws);
      assert (uploads + more)[..|uploads + more| - 1] == uploads + more[..n];
    }
  }

  /** The detail of the refusal, with the limit written in decimal. */
  function LimitText(limit: int): string
  {
    "Upload limit reached (" + (if limit < 0 then "-" + NatToString(-limit) else NatToString(limit))
    + " files). Delete old files to add new."
  }

  /** `enforce_upload_limit_or_raise`: 400 once the workspace holds `limit` uploads. */
  function EnforceUploadLimit(uploads: seq<Upload>, ws: WorkspaceId, limit: int): (r: Result<()>)
    ensures r.Err? <==> UploadCount(uploads, ws) >= limit
    ensures r.Err? ==> r == Err(400, LimitText(limit))
  {
    if UploadCount(uploads, ws) >= limit then Err(400, LimitText(limit)) else Ok(())
  }

  /** `is_workspace_upload_limit_reached`. */
  predicate IsUploadLimitReached(uploads: seq<Upload>, ws: WorkspaceId, limit: int)
  {
    UploadCount(uploads, ws) >= limit
  }

  /** The two checks agree on every state, and with the default limit a workspace accepts at
   *  most 50 manual uploads one at a time. */
  lemma EnforceAgreesWithReached(uploads: seq<Upload>, ws: WorkspaceId, limit: int)
    ensures EnforceUploadLimit(uploads, ws, limit).Err? <==> IsUploadLimitReached(uploads, ws, limit)
    ensures EnforceUploadLimit(uploads, ws, limit).Ok? ==> |Positions(uploads, ws)| < limit
  {
    UploadCountCounts(uploads, ws);
  }

  /** An accepted upload raises the count by one, so the checks never let the count pass
   *  the limit. */
  lemma AcceptedUploadStaysWithinLimit(uploads: seq<Upload>, u: Upload, limit: int)
    requires EnforceUploadLimit(uploads, u.workspaceId, limit).Ok?
    ensures UploadCount(uploads + [u], u.workspaceId) == UploadCount(uploads, u.workspaceId) + 1
    ensures UploadCount(uploads + [u], u.workspaceId) <= limit
  {
    assert (uploads + [u])[..|uploads|] == uploads;
  }
}
